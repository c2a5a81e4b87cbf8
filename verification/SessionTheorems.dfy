/** What a session promises over whole runs: output, ordering, lifetime, timeouts and shutdowns. */
module SessionTheorems {
  import opened Common
  import opened Messages
  import opened Pipeline
  import opened SessionModel
  import opened SessionInvariant
  import opened SessionAccounting

  // ----- Output ------------------------------------------------------------------------------

  /** One batch for every event of a run: the output of one dispatched request is one batch. */
  function Batches(s: State, es: seq<Event>): (bs: seq<seq<Message>>)
    ensures |bs| == |es|
    decreases |es|
  {
    if es == [] then [] else [Batch(s, es[0])] + Batches(Step(s, es[0]), es[1..])
  }

  /** The completion code that a write handler receives in an event, if one runs. */
  function WriteCode(s: State, e: Event): seq<Code>
  {
    if e.WriteDone? && Enabled(s, e) then [e.code] else []
  }

  function WriteCodes(s: State, es: seq<Event>): seq<Code>
    decreases |es|
  {
    if es == [] then [] else WriteCode(s, es[0]) + WriteCodes(Step(s, es[0]), es[1..])
  }

  lemma StepHistory(s: State, e: Event)
    requires Inv(s)
    ensures Step(s, e).pipe.sent == s.pipe.sent + Batch(s, e)
    ensures Step(s, e).pipe.done == s.pipe.done + WriteCode(s, e)
    ensures Step(s, e).handler == s.handler
  {
    StepKeepsInv(s, e);
  }

  lemma {:induction false} RunSent(s: State, es: seq<Event>)
    requires Inv(s)
    ensures Run(s, es).pipe.sent == s.pipe.sent + Flatten(Batches(s, es))
    decreases |es|
  {
    if es == [] {
      assert Flatten(Batches(s, es)) == [];
    } else {
      var t := Step(s, es[0]);
      StepHistory(s, es[0]);
      StepKeepsInv(s, es[0]);
      RunSent(t, es[1..]);
      FlattenCons(Batch(s, es[0]), Batches(t, es[1..]));
      Reassociate(s.pipe.sent, Batch(s, es[0]), Flatten(Batches(t, es[1..])));
      hide Inv, Batch, Step, Flatten;
    }
  }

  lemma {:induction false} RunDone(s: State, es: seq<Event>)
    requires Inv(s)
    ensures Run(s, es).pipe.done == s.pipe.done + WriteCodes(s, es)
    decreases |es|
  {
    if es != [] {
      var t := Step(s, es[0]);
      StepHistory(s, es[0]);
      StepKeepsInv(s, es[0]);
      RunDone(t, es[1..]);
      Reassociate(s.pipe.done, WriteCode(s, es[0]), WriteCodes(t, es[1..]));
      hide Inv, Step, WriteCode;
    }
  }

  lemma {:induction false} RunHandler(s: State, es: seq<Event>)
    requires Inv(s)
    ensures Run(s, es).handler == s.handler
    decreases |es|
  {
    if es != [] {
      hide Inv, Step;
      StepKeepsInv(s, es[0]);
      RunHandler(Step(s, es[0]), es[1..]);
    }
  }

  lemma {:induction false} BatchAt(s: State, es: seq<Event>, i: nat)
    requires i < |es|
    ensures Batches(s, es)[i] == Batch(Run(s, es[..i]), es[i])
    decreases |es|
  {
    hide Step, Batch;
    if i > 0 {
      BatchAt(Step(s, es[0]), es[1..], i - 1);
      assert es[..i][1..] == es[1..][..i - 1];
    }
  }

  /** The message of the posted call whose turn it is after `before`: as many have run as that. */
  function NextPosted(start: State, before: seq<Event>): seq<Message>
  {
    var calls, ran := PostedCalls(start, before), |RanCalls(start, before)|;
    if ran < |calls| then SentBy(calls[ran]) else []
  }

  lemma NextPostedIsFront(start: State, before: seq<Event>)
    requires start.posted == []
    ensures var s := Run(start, before);
      NextPosted(start, before) == if s.posted == [] then [] else SentBy(s.posted[0])
  {
    PostedInOrder(start, before);
    assert [] + PostedCalls(start, before) == PostedCalls(start, before);
    hide Run, PostedCalls, RanCalls;
  }

  /**
    What the callers of a session hand over with event `i` of a run: a posted call the message it was
    posted with, in the order of the posts, and a message that was read what its handlers send.
   */
  function Handed(start: State, es: seq<Event>, i: nat): seq<Message>
    requires i < |es|
  {
    match es[i]
    case RunPosted => NextPosted(start, es[..i])
    case ReadDone(code, _, actions) =>
      if Run(start, es[..i]).reading == 0 || code == EndOfStream then [] else SentByAll(actions)
    case _ => []
  }

  function HandedOver(start: State, es: seq<Event>): seq<seq<Message>>
  {
    seq(|es|, i requires 0 <= i < |es| => Handed(start, es, i))
  }

  lemma BatchesAreHandedOver(start: State, es: seq<Event>)
    requires start.posted == []
    ensures Batches(start, es) == HandedOver(start, es)
  {
    forall i | 0 <= i < |es|
      ensures Batches(start, es)[i] == Handed(start, es, i)
    {
      BatchAt(start, es, i);
      NextPostedIsFront(start, es[..i]);
      hide Run, NextPosted, Batches;
    }
  }

  /**
    The exact output of every run: what the callers handed over, in their order, cut just after the first
    message whose completion is terminal. Reads, timers, contexts and interleaving have no influence.
   */
  lemma OutputOfRun(handler: bool, open: bool, now: int, es: seq<Event>)
    ensures var s := Start(handler, open, now);
      && Run(s, es).pipe.started == Cut(Flatten(HandedOver(s, es)), WriteCodes(s, es), handler)
      && Batches(s, es) == HandedOver(s, es)
  {
    var s := Start(handler, open, now);
    ReachableInv(handler, open, now, es);
    RunSent(s, es);
    RunDone(s, es);
    RunHandler(s, es);
    BatchesAreHandedOver(s, es);
    OutputIsCut(Run(s, es).pipe, handler);
    hide Run, Batches, HandedOver, WriteCodes, Cut, Flatten, PipeInv;
    assert Run(s, es).pipe.done == WriteCodes(s, es);
    assert Run(s, es).pipe.sent == Flatten(Batches(s, es));
  }

  /** In every reachable state, what has been popped and what is still queued is what was sent, in order. */
  lemma PoppedThenQueued(handler: bool, open: bool, now: int, es: seq<Event>)
    ensures var p := Run(Start(handler, open, now), es).pipe;
      && p.sent == p.popped + seq(|p.items|, i requires 0 <= i < |p.items| => p.items[i].message)
      && p.started == p.popped + if p.items == [] then [] else [p.items[0].message]
  {
    var s := Start(handler, open, now);
    ReachableInv(handler, open, now, es);
    var p := Run(s, es).pipe;
    hide Run;
    assert p.items != [] ==> p.sent[..|p.popped| + 1] == p.sent[..|p.popped|] + [p.items[0].message];
  }

  /**
    In every reachable state at most one write is outstanding, it writes the front of the queue, and
    a queue that has work while nothing is written is the mark of a terminal completion.
   */
  lemma OneWriteOutstanding(handler: bool, open: bool, now: int, es: seq<Event>)
    ensures var p := Run(Start(handler, open, now), es).pipe;
      && |p.flights| <= 1
      && (p.flights != [] ==> p.items != [] && p.flights[0].id == p.items[0].id)
      && (Latched(p) <==>
            exists i :: 0 <= i < |p.done| && i < |p.sent| && Terminal(p.done[i], p.sent[i].needEof, handler))
  {
    var s := Start(handler, open, now);
    ReachableInv(handler, open, now, es);
    RunDone(s, es);
    RunHandler(s, es);
    LatchedIffTerminal(Run(s, es).pipe, handler);
  }

  /**
    If no message asks for the connection to close and every write succeeds, then the queue holds
    exactly the sends that still await their completion, and it never latches: after as many
    completions as sends it is empty, idle, and everything has been written.
   */
  lemma CleanRunDrains(handler: bool, open: bool, now: int, es: seq<Event>)
    requires var s := Start(handler, open, now);
      && (forall m <- Flatten(Batches(s, es)) :: !m.needEof)
      && (forall c <- WriteCodes(s, es) :: c == Ok)
    ensures var s := Start(handler, open, now);
      var sends, completions, p := |Flatten(Batches(s, es))|, |WriteCodes(s, es)|, Run(s, es).pipe;
      && !Latched(p)
      && |p.items| == sends - completions
      && |p.started| == if completions < sends then completions + 1 else sends
  {
    var s := Start(handler, open, now);
    ReachableInv(handler, open, now, es);
    RunSent(s, es);
    RunDone(s, es);
    RunHandler(s, es);
    CleanPipe(Run(s, es).pipe, handler);
  }

  lemma CleanPipe(p: Pipe, handler: bool)
    requires PipeInv(p, handler)
    requires (forall m <- p.sent :: !m.needEof) && (forall c <- p.done :: c == Ok)
    ensures !Latched(p) && |p.items| == |p.sent| - |p.done|
    ensures |p.started| == if |p.done| < |p.sent| then |p.done| + 1 else |p.sent|
  {
    assert forall i :: 0 <= i < |p.done| && i < |p.sent| ==> p.done[i] in p.done && p.sent[i] in p.sent;
  }

  /** `n` successful completions of the front write. */
  function Successes(n: nat): (es: seq<Event>)
  {
    if n == 0 then [] else [WriteDone(0, Ok, Ok)] + Successes(n - 1)
  }

  lemma {:induction false} NothingToComplete(s: State, n: nat)
    requires s.pipe.flights == []
    ensures Run(s, Successes(n)) == s
  {
    if n > 0 {
      RunSuccesses(s, n);
      NothingToComplete(s, n - 1);
    }
  }

  lemma RunSuccesses(s: State, n: nat)
    requires n > 0
    ensures Run(s, Successes(n)) == Run(Step(s, WriteDone(0, Ok, Ok)), Successes(n - 1))
  {
    hide Step;
    assert Successes(n)[1..] == Successes(n - 1);
  }

  /** One success takes the front out of the queue, or else latches the queue on its closing front. */
  lemma OneSuccess(s: State)
    requires Inv(s) && s.pipe.items != [] && !Latched(s.pipe)
    ensures var p, t := s.pipe, Step(s, WriteDone(0, Ok, Ok));
      && Inv(t) && PipeInv(p, s.handler)
      && (if p.items[0].message.needEof then t.pipe.flights == [] && Drained(p, t.pipe)
          else && t.pipe.items == p.items[1..] && !Latched(t.pipe)
               && t.pipe.sent == p.sent && |t.pipe.popped| == |p.popped| + 1)
  {
    StepKeepsInv(s, WriteDone(0, Ok, Ok));
    var t := Step(s, WriteDone(0, Ok, Ok));
    hide Step, TimerInv, Drained;
    if s.pipe.items[0].message.needEof {
      CompletedLast(s.pipe, t.pipe, s.handler);
    } else {
      CompletedOnce(s.pipe, t.pipe, s.handler);
    }
    hide *;
  }

  /**
    From any state that has not latched, successful completions write the queue up to and including its
    first closing message, which stays at the front of a latched queue. If there is none the queue ends
    up empty and idle, and the next message starts at once.
   */
  lemma {:induction false} Drain(s: State)
    requires Inv(s) && !Latched(s.pipe)
    ensures Drained(s.pipe, Run(s, Successes(|s.pipe.items|)).pipe)
    decreases |s.pipe.items|
  {
    var n := |s.pipe.items|;
    if n == 0 {
      NothingToDrain(s.pipe, s.handler);
      hide Drained;
    } else {
      OneSuccess(s);
      hide *;
      var t := Step(s, WriteDone(0, Ok, Ok));
      RunSuccesses(s, n);
      if s.pipe.items[0].message.needEof {
        NothingToComplete(t, n - 1);
      } else {
        Drain(t);
        DrainedOneMore(s.pipe, t.pipe, Run(t, Successes(n - 1)).pipe, s.handler);
      }
    }
  }

  // ----- The latch ---------------------------------------------------------------------------

  /** Once a write completion was terminal, no continuation of the run starts another write. */
  lemma {:induction false} LatchForever(s: State, es: seq<Event>)
    requires Inv(s) && Latched(s.pipe)
    ensures Latched(Run(s, es).pipe)
    ensures Run(s, es).pipe.started == s.pipe.started
    decreases |es|
  {
    if es != [] {
      var t := Step(s, es[0]);
      StepHistory(s, es[0]);
      StepKeepsInv(s, es[0]);
      StillLatched(s.pipe, t.pipe, s.handler);
      hide Inv, Step, Latched;
      LatchForever(t, es[1..]);
    }
  }

  lemma StillLatched(p: Pipe, q: Pipe, handler: bool)
    requires PipeInv(p, handler) && PipeInv(q, handler) && Latched(p)
    requires p.sent <= q.sent && q.done == p.done
    ensures Latched(q) && q.started == p.started
  {
    var n := |p.popped|;
    assert Terminal(q.done[n], q.sent[n].needEof, handler);
    assert |q.popped| == n;
    assert q.items != [];
    assert q.sent[..n + 1] == p.sent[..n + 1];
  }

  /**
    What the completion of a write decides. The end of the stream, a failure that is reported, or a message
    that asks for the connection to close: nothing is written any more, however the run goes on. Otherwise
    the message leaves the queue and the next one starts.
   */
  lemma WriteCompletion(s: State, index: nat, code: Code, shut: Code, es: seq<Event>)
    requires Inv(s) && index < |s.pipe.flights|
    ensures var p, t := s.pipe, Step(s, WriteDone(index, code, shut));
      && p.items != []
      && (if code == EndOfStream || (code != Ok && s.handler) || p.items[0].message.needEof then
            t.pipe.items == p.items && Run(t, es).pipe.started == p.started
          else
            && t.pipe.items == p.items[1..]
            && t.pipe.started == p.started + if |p.items| > 1 then [p.items[1].message] else [])
  {
    var t := Step(s, WriteDone(index, code, shut));
    StepKeepsInv(s, WriteDone(index, code, shut));
    CompletionDecides(s.pipe, index, code, s.handler);
    hide Step, PipeInv, TimerInv, Complete, Owners;
    if Latched(t.pipe) {
      LatchForever(t, es);
    }
    hide Run;
  }

  lemma CompletionDecides(p: Pipe, index: nat, code: Code, handler: bool)
    requires PipeInv(p, handler) && index < |p.flights|
    ensures var q := Complete(p, index, code, handler);
      && p.items != []
      && (if code == EndOfStream || (code != Ok && handler) || p.items[0].message.needEof then
            Latched(q) && q.items == p.items && q.started == p.started
          else
            && q.items == p.items[1..]
            && q.started == p.started + if |p.items| > 1 then [p.items[1].message] else [])
  {
  }

  // ----- The serializer ----------------------------------------------------------------------

  /**
    While a write is outstanding its serializer refers to the message owned by the front item, and
    neither is touched before the completion, however the run goes on.
   */
  lemma {:induction false} SerializerStaysValid(s: State, es: seq<Event>)
    requires Inv(s) && s.pipe.flights != []
    requires WriteCodes(s, es) == []
    ensures var t := Run(s, es);
      && t.pipe.flights == s.pipe.flights
      && s.pipe.items != [] && s.pipe.items <= t.pipe.items
      && s.pipe.serializer == t.pipe.serializer == Some(t.pipe.items[0].id)
    decreases |es|
  {
    if es != [] {
      var t := Step(s, es[0]);
      SerializerStep(s, es[0]);
      StepKeepsInv(s, es[0]);
      hide Inv, Step;
      SerializerStaysValid(t, es[1..]);
    }
  }

  lemma SerializerStep(s: State, e: Event)
    requires Inv(s) && s.pipe.flights != []
    requires !(e.WriteDone? && Enabled(s, e))
    ensures var t := Step(s, e);
      && t.pipe.flights == s.pipe.flights && t.pipe.serializer == s.pipe.serializer
      && s.pipe.items != [] && s.pipe.items <= t.pipe.items
      && s.pipe.serializer == Some(s.pipe.items[0].id)
  {
    hide Step;
    StepKeepsInv(s, e);
    PopsNothing(s.pipe, Step(s, e).pipe, s.handler);
  }

  /** Without a completion the queue only grows at its end. */
  lemma PopsNothing(p: Pipe, q: Pipe, handler: bool)
    requires PipeInv(p, handler) && PipeInv(q, handler) && p.flights != []
    requires q.popped == p.popped && p.sent <= q.sent
    ensures p.items != [] && p.items <= q.items && p.serializer == Some(p.items[0].id)
  {
  }

  // ----- Request order -----------------------------------------------------------------------

  /**
    Responses leave in request order: the wire holds a prefix of the concatenated per-event batches,
    so a message of a later batch never precedes one of an earlier batch, and nothing is skipped.
   */
  lemma ResponsesInRequestOrder(handler: bool, open: bool, now: int, es: seq<Event>, j: nat, k: nat)
    requires j <= k < |Run(Start(handler, open, now), es).pipe.started|
    ensures var s := Start(handler, open, now);
      var bs := Batches(s, es);
      var wire := Run(s, es).pipe.started;
      && wire <= Flatten(bs)
      && wire[j] in bs[PartOf(bs, j)] && wire[k] in bs[PartOf(bs, k)]
      && PartOf(bs, j) <= PartOf(bs, k)
  {
    var s := Start(handler, open, now);
    ReachableInv(handler, open, now, es);
    RunSent(s, es);
    RunDone(s, es);
    RunHandler(s, es);
    var bs := Batches(s, es);
    assert Flatten(bs) == Run(s, es).pipe.sent;
    PartOfMonotone(bs, j, k);
  }

  // ----- Reads -------------------------------------------------------------------------------

  /**
    A call of `recv` whose turn has come starts a read: the session lives on, the read can complete in any
    way, and what the handlers of the message then send is queued.
   */
  lemma RecvIsAnswered(s: State, code: Code, shut: Code, actions: seq<Action>)
    requires Inv(s) && s.posted != [] && CallReads(s.posted[0]) > 0
    requires code != EndOfStream
    ensures var t := Step(s, RunPosted);
      && t.reading == s.reading + 1 && !t.destroyed && Enabled(t, ReadDone(code, shut, actions))
      && Step(t, ReadDone(code, shut, actions)).pipe.sent == s.pipe.sent + SentByAll(actions)
  {
    var t := Step(s, RunPosted);
    StepBalances(s, RunPosted);
    StepKeepsInv(s, RunPosted);
    StepHistory(s, RunPosted);
    RecvSends(s);
    StepHistory(t, ReadDone(code, shut, actions));
    hide Step, PipeInv, TimerInv;
  }

  lemma RecvSends(s: State)
    requires s.posted != [] && CallReads(s.posted[0]) > 0
    ensures Batch(s, RunPosted) == []
  {
  }

  // ----- Lifetime ----------------------------------------------------------------------------

  /**
    A session is destroyed exactly when no completion, posted call or context holds it any more; the
    items left in its queue do not count.
   */
  lemma DestroyedIffUnowned(handler: bool, open: bool, now: int, es: seq<Event>)
    ensures var s := Run(Start(handler, open, now), es);
      s.refs == Owners(s) && (s.destroyed <==> Owners(s) == 0)
  {
    ReachableInv(handler, open, now, es);
  }

  /** No handler runs on a destroyed session: from there on only the clock moves. */
  lemma {:induction false} DestroyedForever(s: State, es: seq<Event>)
    requires Inv(s) && s.destroyed
    ensures forall e :: Enabled(s, e) ==> e.Tick?
    ensures Run(s, es) == s.(now := Run(s, es).now)
    decreases |es|
  {
    if es != [] {
      StepKeepsInv(s, es[0]);
      DestroyedForever(Step(s, es[0]), es[1..]);
    }
  }

  lemma RunOfFour(s: State, a: Event, b: Event, c: Event, d: Event)
    ensures Run(s, [a, b, c, d]) == Step(Step(Step(Step(s, a), b), c), d)
  {
    hide Step;
    var t, u, v := Step(s, a), Step(Step(s, a), b), Step(Step(Step(s, a), b), c);
    assert [a, b, c, d][1..] == [b, c, d] && [b, c, d][1..] == [c, d] && [c, d][1..] == [d];
    assert Run(v, [d]) == Run(Step(v, d), []);
    assert Run(t, [b, c, d]) == Run(u, [c, d]) == Run(v, [d]);
  }

  /**
    When the last owner leaves the session is destroyed, whatever its queue still holds: the queue's
    back-reference owns nothing.
   */
  lemma QueueDoesNotOwnSession(s: State)
    requires Inv(s) && s.contexts == 1 && Owners(s) == 1
    ensures var t := Step(s, DropContext); t.destroyed && t.pipe == s.pipe
  {
    hide PipeInv, TimerInv;
  }

  /** Such a session exists: a write fails with the end of the stream after the context has gone. */
  lemma AbandonedItems(handler: bool, message: Message)
    ensures var s := Run(Start(handler, true, 0),
                         [Post(Send(message)), RunPosted, DropContext, WriteDone(0, EndOfStream, Ok)]);
      s.destroyed && s.pipe.items == [Item(0, message)] && s.link.shutdowns == 2
  {
    var s := Start(handler, true, 0);
    RunOfFour(s, Post(Send(message)), RunPosted, DropContext, WriteDone(0, EndOfStream, Ok));
    hide Run;
    var t := Step(Step(s, Post(Send(message))), RunPosted);
    assert t.pipe.items == [Item(0, message)] && |t.pipe.flights| == 1 && t.refs == 2;
  }

  /** An event that lets one owner go, and takes nothing new on unless it runs a posted call. */
  function Leave(s: State): (e: Event)
    requires Owners(s) > 0
    ensures Enabled(s, e)
  {
    if s.posted != [] then RunPosted
    else if s.contexts > 0 then DropContext
    else if s.reading > 0 then ReadDone(EndOfStream, Ok, [])
    else if s.pipe.flights != [] then WriteDone(0, EndOfStream, Ok)
    else if s.timer.cancelled > 0 then TimerDone(true, Aborted, Ok)
    else TimerDone(false, Ok, Ok)
  }

  lemma PostedRuns(s: State)
    requires s.posted != []
    ensures |Step(s, RunPosted).posted| < |s.posted|
  {
    var r := s.(posted := s.posted[1..]);
    assert Perform(r, s.posted[0]).posted == r.posted;
    hide Perform;
  }

  /** A completion that ends the connection only lets its owner go. */
  lemma CompletionLetsGo(s: State)
    requires Owners(s) > 0 && s.posted == [] && s.contexts == 0
    ensures Step(s, Leave(s)).posted == [] && Step(s, Leave(s)).refs == s.refs - 1
  {
    if s.reading > 0 {
      var r := s.(reading := s.reading - 1);
      DoEofEffects(r.(timer := Cancel(r.timer)), Ok);
    } else if s.pipe.flights != [] {
      var landed := s.(pipe := Land(s.pipe, 0, EndOfStream));
      DoEofEffects(landed.(timer := Cancel(landed.timer)), Ok);
    } else {
      var e := Leave(s);
      var r := s.(timer := TakeWait(s.timer, e.wasCancelled));
      var late := r.(timer := r.timer.(timeouts := r.timer.timeouts + [Timeout(r.now, |r.timer.armings|)]));
      DoEofEffects(ReportIf(late, TimedOut, FromTimer), Ok);
    }
    hide DoEof;
  }

  lemma LeaveLetsGo(s: State)
    requires Owners(s) > 0
    ensures var t := Step(s, Leave(s));
      if s.posted == [] then t.posted == [] && t.refs == s.refs - 1 else |t.posted| < |s.posted|
  {
    if s.posted != [] {
      PostedRuns(s);
      hide Step;
    } else if s.contexts == 0 {
      CompletionLetsGo(s);
      hide Step, Leave;
    }
  }

  /** Sessions do not leak: every state that a session can reach can be continued to its destruction. */
  lemma {:induction false} CanBeDestroyed(s: State) returns (es: seq<Event>)
    requires Inv(s)
    ensures Run(s, es).destroyed
    decreases |s.posted|, Owners(s)
  {
    if Owners(s) == 0 {
      es := [];
    } else {
      var t := Step(s, Leave(s));
      LeaveLetsGo(s);
      StepKeepsInv(s, Leave(s));
      assert Owners(t) == t.refs && Owners(s) == s.refs;
      var rest := CanBeDestroyed(t);
      es := [Leave(s)] + rest;
      assert es[1..] == rest;
      hide Inv, Step, Leave;
    }
  }
}
