/**
  The accept pipeline. `on_accept` is not bound to the listener's strand, so its completions run on any
  thread of the pool; it first posts the result to the strand and then arms the next accept.
 */
module AcceptPipeline {
  import opened Common
  import opened Messages

  /** The result of one accept. */
  datatype Accepted = Accepted(code: Code, socket: nat)

  /** A thread inside `on_accept`, before its first or before its second statement. */
  datatype Handler = Handler(result: Accepted, second: bool)

  /** `arrived` and `handed` are history: accept results in completion order, results given to the strand handler. */
  datatype Pool = Pool(
    pending: nat,
    running: map<nat, Handler>,
    strand: seq<Accepted>,
    arrived: seq<Accepted>,
    handed: seq<Accepted>)

  datatype Event =
    | AcceptDone(thread: nat, result: Accepted)
    | Advance(thread: nat)
    | RunStrand

  /** The order of the two statements of `on_accept`. */
  datatype Program = PostThenRearm | RearmThenPost

  /** A listener whose `loop` succeeded: one accept is armed. */
  function Listening(): Pool
  {
    Pool(1, map[], [], [], [])
  }

  function Post(p: Pool, result: Accepted): Pool
  {
    p.(strand := p.strand + [result])
  }

  function DoAccept(p: Pool): Pool
  {
    p.(pending := p.pending + 1)
  }

  /** One statement of `on_accept`: the first posts exactly when the program posts first. */
  function Statement(program: Program, p: Pool, h: Handler): Pool
  {
    if (program == PostThenRearm) != h.second then Post(p, h.result) else DoAccept(p)
  }

  function Step(program: Program, p: Pool, e: Event): Pool
  {
    match e
    case AcceptDone(t, result) =>
      if p.pending == 0 || t in p.running then p
      else p.(pending := p.pending - 1,
              running := p.running[t := Handler(result, false)],
              arrived := p.arrived + [result])
    case Advance(t) =>
      if t !in p.running then p
      else
        var h := p.running[t];
        Statement(program, p.(running := if h.second then p.running - {t} else p.running[t := h.(second := true)]), h)
    case RunStrand =>
      if p.strand == [] then p
      else p.(strand := p.strand[1..], handed := p.handed + [p.strand[0]])
  }

  function Run(program: Program, p: Pool, es: seq<Event>): Pool
    decreases |es|
  {
    if es == [] then p else Run(program, Step(program, p, es[0]), es[1..])
  }

  lemma {:induction false} RunAppend(program: Program, p: Pool, a: seq<Event>, b: seq<Event>)
    ensures Run(program, p, a + b) == Run(program, Run(program, p, a), b)
    decreases |a|
  {
    if a == [] {
      assert a + b == b;
    } else {
      assert (a + b)[1..] == a[1..] + b;
      RunAppend(program, Step(program, p, a[0]), a[1..], b);
    }
  }

  /** One accept is in the pipeline: armed, being posted, or about to be armed again. */
  ghost predicate Inv(p: Pool)
  {
    if p.running == map[] then p.pending == 1 && p.arrived == p.handed + p.strand
    else
      && p.pending == 0
      && exists t :: t in p.running && p.running.Keys == {t}
          && p.arrived == p.handed + p.strand + if p.running[t].second then [] else [p.running[t].result]
  }

  lemma StepKeepsInv(p: Pool, e: Event)
    requires Inv(p)
    ensures Inv(Step(PostThenRearm, p, e))
  {
    var q := Step(PostThenRearm, p, e);
    match e
    case AcceptDone(t, result) =>
      if q != p {
        assert t in q.running && q.running.Keys == {t};
      }
    case Advance(t) =>
      if t in p.running {
        assert p.running.Keys == {t};
        if p.running[t].second {
          assert q.running == map[];
        } else {
          assert t in q.running && q.running.Keys == {t};
        }
      }
    case RunStrand =>
      if p.strand != [] {
        assert q.handed + q.strand == p.handed + p.strand;
      }
  }

  lemma {:induction false} RunKeepsInv(p: Pool, es: seq<Event>)
    requires Inv(p)
    ensures Inv(Run(PostThenRearm, p, es))
    decreases |es|
  {
    if es != [] {
      StepKeepsInv(p, es[0]);
      RunKeepsInv(Step(PostThenRearm, p, es[0]), es[1..]);
    }
  }

  /**
    On any number of threads the results reach the strand handler in the order in which the accepts
    completed, without loss or repetition, and there is always exactly one accept armed or being
    handled: each completion arms exactly one.
   */
  lemma HandedInOrder(es: seq<Event>)
    ensures var p := Run(PostThenRearm, Listening(), es);
      && p.handed + p.strand <= p.arrived
      && |p.arrived| <= |p.handed| + |p.strand| + 1
      && p.pending + |p.running| == 1
  {
    assert Inv(Listening());
    RunKeepsInv(Listening(), es);
    var p := Run(PostThenRearm, Listening(), es);
    if p.running != map[] {
      var t :| t in p.running && p.running.Keys == {t};
      assert |p.running| == |p.running.Keys| == 1;
    }
  }

  /**
    The order of the two statements is what this rests on: arming first lets a later accept overtake
    an earlier one.
   */
  lemma RearmFirstReorders(a: Accepted, b: Accepted)
    requires a != b
    ensures exists es :: !(Run(RearmThenPost, Listening(), es).handed <= Run(RearmThenPost, Listening(), es).arrived)
  {
    var es := [AcceptDone(1, a), Advance(1), AcceptDone(2, b), Advance(2), Advance(2), RunStrand];
    var p1 := Step(RearmThenPost, Listening(), es[0]);
    var p2 := Step(RearmThenPost, p1, es[1]);
    var p3 := Step(RearmThenPost, p2, es[2]);
    var p4 := Step(RearmThenPost, p3, es[3]);
    var p5 := Step(RearmThenPost, p4, es[4]);
    var p6 := Step(RearmThenPost, p5, es[5]);
    assert p6.handed == [b] && p6.arrived == [a, b];
    hide Step;
    assert Run(RearmThenPost, p5, es[5..]) == Run(RearmThenPost, p6, es[5..][1..]) == p6;
    assert es[4..][1..] == es[5..];
    assert Run(RearmThenPost, p4, es[4..]) == Run(RearmThenPost, p5, es[5..]);
    assert es[3..][1..] == es[4..];
    assert Run(RearmThenPost, p3, es[3..]) == Run(RearmThenPost, p4, es[4..]);
    assert es[2..][1..] == es[3..];
    assert Run(RearmThenPost, p2, es[2..]) == Run(RearmThenPost, p3, es[3..]);
    assert es[1..][1..] == es[2..];
    assert Run(RearmThenPost, p1, es[1..]) == Run(RearmThenPost, p2, es[2..]);
    assert Run(RearmThenPost, Listening(), es) == Run(RearmThenPost, p1, es[1..]);
  }

  // ----- The listener object -------------------------------------------------------------------

  /** The sockets that the accept callback is called with. */
  function SocketsOf(results: seq<Accepted>): seq<nat>
    decreases |results|
  {
    if results == [] then []
    else
      var last := results[|results| - 1];
      SocketsOf(results[..|results| - 1]) + if last.code == Ok then [last.socket] else []
  }

  lemma {:induction false} SocketsOfPrefix(a: seq<Accepted>, b: seq<Accepted>)
    requires a <= b
    ensures SocketsOf(a) <= SocketsOf(b)
    decreases |b|
  {
    if |a| < |b| {
      assert a <= b[..|b| - 1];
      SocketsOfPrefix(a, b[..|b| - 1]);
    } else {
      assert a == b;
    }
  }

  /**
    In every run, on any number of threads, the accept callback has been called with a prefix of the
    sockets accepted, in the order in which the accepts completed.
   */
  lemma SocketsInOrder(es: seq<Event>)
    ensures var p := Run(PostThenRearm, Listening(), es); SocketsOf(p.handed) <= SocketsOf(p.arrived)
  {
    HandedInOrder(es);
    var p := Run(PostThenRearm, Listening(), es);
    hide Run;
    assert p.handed <= p.handed + p.strand <= p.arrived;
    SocketsOfPrefix(p.handed, p.arrived);
  }

  /** What happens to a listener on one thread: an accept completes, or the strand runs a posted result. */
  datatype Happening = Completes(result: Accepted) | Posted

  /** The results of the accepts that complete, in order. */
  function Results(happenings: seq<Happening>): seq<Accepted>
    decreases |happenings|
  {
    if |happenings| == 0 then []
    else
      var last := happenings[|happenings| - 1];
      Results(happenings[..|happenings| - 1]) + if last.Completes? then [last.result] else []
  }

  /** The events of the pipeline that one of them amounts to when no handler is running. */
  function EventsOf(happening: Happening): seq<Event>
  {
    match happening
    case Completes(result) => [AcceptDone(0, result), Advance(0), Advance(0)]
    case Posted => [RunStrand]
  }

  lemma AcceptUndisturbed(p: Pool, result: Accepted)
    requires p.running == map[] && p.pending > 0
    ensures var h := Handler(result, false);
      var taken := p.(pending := p.pending - 1, arrived := p.arrived + [result]);
      Run(PostThenRearm, p, EventsOf(Completes(result)))
      == Statement(PostThenRearm, Statement(PostThenRearm, taken, h), h.(second := true))
  {
    var es := EventsOf(Completes(result));
    var a := Step(PostThenRearm, p, es[0]);
    var b := Step(PostThenRearm, a, es[1]);
    var c := Step(PostThenRearm, b, es[2]);
    assert c.running == map[];
    hide Step;
    assert es[1..][1..] == es[2..] && es[2..][1..] == [];
    assert Run(PostThenRearm, b, es[2..]) == Run(PostThenRearm, c, []);
    assert Run(PostThenRearm, a, es[1..]) == Run(PostThenRearm, b, es[2..]);
  }

  lemma PostedRuns(p: Pool)
    ensures Run(PostThenRearm, p, EventsOf(Posted)) == Step(PostThenRearm, p, RunStrand)
  {
    hide Step;
    assert [RunStrand][1..] == [];
  }

  datatype ListenerReport = ListenerReport(code: Code, step: string)

  class Listener {
    const hasOnError: bool
    var endpoint: Option<nat>
    var pending: nat
    var strand: seq<Accepted>
    var sockets: seq<nat>
    var reports: seq<ListenerReport>
    ghost var arrived: seq<Accepted>
    ghost var handed: seq<Accepted>

    /** The accept callback has seen exactly the accepted sockets, in order. */
    ghost predicate Valid()
      reads this
    {
      sockets == SocketsOf(handed)
    }

    ghost function Snapshot(): Pool
      reads this
    {
      Pool(pending, map[], strand, arrived, handed)
    }

    constructor (hasOnError: bool)
      ensures Valid() && this.hasOnError == hasOnError && endpoint == None && reports == []
      ensures Snapshot() == Pool(0, map[], [], [], [])
    {
      this.hasOnError := hasOnError;
      endpoint, pending, strand, sockets, reports := None, 0, [], [], [];
      arrived, handed := [], [];
    }

    method CheckEc(code: Code, step: string) returns (failed: bool)
      modifies this`reports
      ensures failed == (code != Ok)
      ensures reports == old(reports) + if failed && hasOnError then [ListenerReport(code, step)] else []
    {
      failed := code != Ok;
      if failed && hasOnError {
        reports := reports + [ListenerReport(code, step)];
      }
    }

    /**
      `loop`: the codes are what the acceptor returns for opening, setting the option, binding and
      listening. The first failure is reported and ends the attempt before an accept is armed.
     */
    method Loop(address: nat, open: Code, option: Code, bind: Code, listen: Code)
      requires Valid()
      modifies this
      ensures Valid() && strand == old(strand) && sockets == old(sockets)
      ensures arrived == old(arrived) && handed == old(handed)
      ensures open == option == bind == listen == Ok ==>
                endpoint == Some(address) && pending == old(pending) + 1 && reports == old(reports)
      ensures !(open == option == bind == listen == Ok) ==>
                var first := if open != Ok then ListenerReport(open, "open/loop")
                             else if option != Ok then ListenerReport(option, "set_option/loop")
                             else if bind != Ok then ListenerReport(bind, "bind/loop")
                             else ListenerReport(listen, "listen/loop");
                && endpoint == old(endpoint) && pending == old(pending)
                && reports == old(reports) + if hasOnError then [first] else []
    {
      var failed := CheckEc(open, "open/loop");
      if failed { return; }
      failed := CheckEc(option, "set_option/loop");
      if failed { return; }
      failed := CheckEc(bind, "bind/loop");
      if failed { return; }
      failed := CheckEc(listen, "listen/loop");
      if failed { return; }
      endpoint := Some(address);
      DoAccept();
    }

    method DoAccept()
      modifies this`pending
      ensures pending == old(pending) + 1
    {
      pending := pending + 1;
    }

    /** `on_accept`, undisturbed: the two statements of the pipeline, one after the other. */
    method OnAccept(result: Accepted)
      requires Valid() && pending > 0
      modifies this
      ensures Valid() && sockets == old(sockets) && reports == old(reports) && endpoint == old(endpoint)
      ensures var h := Handler(result, false);
        var taken := old(Snapshot()).(pending := old(pending) - 1, arrived := old(arrived) + [result]);
        Snapshot() == Statement(PostThenRearm, Statement(PostThenRearm, taken, h), h.(second := true))
    {
      pending := pending - 1;
      arrived := arrived + [result];
      strand := strand + [result];
      DoAccept();
    }

    /** The strand runs the oldest posted `on_spawn_connect`. */
    method OnSpawnConnect()
      requires Valid() && strand != []
      modifies this
      ensures Valid() && Snapshot() == Step(PostThenRearm, old(Snapshot()), RunStrand)
      ensures var result := old(strand)[0];
        && sockets == old(sockets) + (if result.code == Ok then [result.socket] else [])
        && reports == old(reports) +
             (if result.code != Ok && hasOnError then [ListenerReport(result.code, "accept/loop")] else [])
      ensures endpoint == old(endpoint)
    {
      var result := strand[0];
      strand := strand[1..];
      handed := handed + [result];
      assert handed[..|handed| - 1] == old(handed);
      var failed := CheckEc(result.code, "accept/loop");
      if !failed {
        sockets := sockets + [result.socket];
      }
    }

    /** Any happenings take the listener through a run of the pipeline, and the callback sees the sockets in order. */
    method Drive(happenings: seq<Happening>) returns (ghost es: seq<Event>)
      requires Valid() && Inv(Snapshot())
      modifies this
      ensures Valid() && Inv(Snapshot())
      ensures Snapshot() == Run(PostThenRearm, old(Snapshot()), es)
      ensures arrived == old(arrived) + Results(happenings)
      ensures handed <= arrived && sockets <= SocketsOf(arrived)
    {
      es := [];
      ghost var p := Snapshot();
      for i := 0 to |happenings|
        invariant Valid() && Inv(Snapshot())
        invariant Snapshot() == Run(PostThenRearm, p, es)
        invariant arrived == p.arrived + Results(happenings[..i])
      {
        ghost var q := Snapshot();
        match happenings[i] {
          case Completes(result) =>
            AcceptUndisturbed(q, result);
            OnAccept(result);
          case Posted =>
            PostedRuns(q);
            if strand != [] {
              OnSpawnConnect();
            }
        }
        RunKeepsInv(q, EventsOf(happenings[i]));
        RunAppend(PostThenRearm, p, es, EventsOf(happenings[i]));
        hide Run, Step, EventsOf;
        es := es + EventsOf(happenings[i]);
        assert happenings[..i + 1][..i] == happenings[..i];
      }
      assert happenings[..|happenings|] == happenings;
      assert handed <= handed + strand == arrived;
      SocketsOfPrefix(handed, arrived);
    }
  }

  /** A new listener whose `loop` succeeds, and whatever happens to it then. */
  method Listen(hasOnError: bool, address: nat, happenings: seq<Happening>)
    returns (listener: Listener, ghost es: seq<Event>)
    ensures listener.Snapshot() == Run(PostThenRearm, Listening(), es)
    ensures listener.arrived == Results(happenings)
    ensures listener.sockets == SocketsOf(listener.handed)
    ensures listener.handed <= Results(happenings) && listener.sockets <= SocketsOf(Results(happenings))
  {
    listener := new Listener(hasOnError);
    listener.Loop(address, Ok, Ok, Ok, Ok);
    assert listener.Snapshot() == Listening();
    es := listener.Drive(happenings);
  }
}
