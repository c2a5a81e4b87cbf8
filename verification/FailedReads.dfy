/** A read that fails is dispatched all the same; what a server without registrations answers to it. */
module FailedReads {
  import opened Common
  import opened Messages
  import opened Pipeline
  import opened Chains
  import opened Routing
  import opened SessionModel
  import opened SessionInvariant
  import opened SessionTheorems
  import opened SessionEffects

  /** The message of a parser that has parsed nothing. */
  function Unparsed(version: nat): Request
  {
    Request(Unknown, "", version)
  }

  /** What a server router without registrations does for a request of unknown method, in any order. */
  lemma OnlyOneOrder(order: seq<string>)
    requires Enumerates(order, ChainsOf(ServerTable(), Unknown).Keys)
    ensures order == [""]
  {
    assert ChainsOf(ServerTable(), Unknown).Keys == {""};
    EnumeratesKeys(order, ChainsOf(ServerTable(), Unknown));
    assert multiset(order) == multiset{""};
    assert |multiset(order)| == 1;
    assert order[0] in multiset(order);
  }

  /**
    On a server without registrations a read that fails before anything was parsed is reported and then
    answered twice with `Not Found`, to a peer that asked for nothing.
   */
  lemma FailedReadAnsweredTwice(s: State, code: Code, shut: Code, version: nat, regex: Regex, order: seq<string>)
    requires Inv(s) && s.reading > 0 && code != Ok && code != EndOfStream
    requires regex("", "").Some?
    requires Enumerates(order, ChainsOf(ServerTable(), Unknown).Keys)
    ensures forall path <- order :: path in ChainsOf(ServerTable(), Unknown)
    ensures var request := Unparsed(version);
      var actions := ActionsOfOutcome(Dispatch(regex, ServerTable(), request, order));
      var t := Step(s, ReadDone(code, shut, actions));
      var answer := Message("Not Found", version < 11);
      && t.pipe.sent == s.pipe.sent + [answer, answer]
      && t.reports == s.reports + (if s.handler then [Report(code, FromRead)] else [])
      && Shutdowns(t) == Shutdowns(s)
  {
    OnlyOneOrder(order);
    UnknownMethodAnsweredTwice(regex, Unparsed(version));
    var reply := NotFoundReply(Unparsed(version));
    var e := ReadDone(code, shut, [reply, reply]);
    assert [reply, reply][1..] == [reply] && [reply][1..] == [];
    assert SentByAll([reply]) == SentBy(reply.call) + SentByAll([]);
    StepHistory(s, e);
    StepShows(s, e);
    hide Inv, Step, ChainsOf, ServerTable, Dispatch, Shutdowns;
  }

  /** How far a queue drains that gets two equal answers at its end. */
  lemma WrittenThrough(items: seq<Item>, answers: seq<Item>)
    requires |answers| == 2 && answers[0].message == answers[1].message
    ensures FirstClosing(items + answers)
         == if FirstClosing(items) < |items| then FirstClosing(items)
            else if answers[0].message.needEof then |items|
            else |items| + 2
  {
    var all := items + answers;
    var k := FirstClosing(all);
    assert forall i :: 0 <= i < |items| ==> all[i] == items[i];
    assert all[|items|] == answers[0] && all[|items| + 1] == answers[1];
  }

  lemma SentIsQueued(p: Pipe, q: Pipe, handler: bool, m: Message)
    requires PipeInv(p, handler) && PipeInv(q, handler)
    requires q.sent == p.sent + [m, m] && q.popped == p.popped
    ensures q.items == p.items + [Item(|p.sent|, m), Item(|p.sent| + 1, m)]
  {
    assert |q.items| == |p.items| + 2;
  }

  /** The write side after a failed read: which of the two answers the following successes put on the wire. */
  lemma AnswersWritten(p: Pipe, q: Pipe, r: Pipe, handler: bool, m: Message)
    requires PipeInv(p, handler) && PipeInv(q, handler)
    requires q.sent == p.sent + [m, m] && q.popped == p.popped && Drained(q, r)
    ensures Latched(r) <==> m.needEof || FirstClosing(p.items) < |p.items|
    ensures r.started == if FirstClosing(p.items) < |p.items| then p.sent[..|p.popped| + FirstClosing(p.items) + 1]
                         else p.sent + if m.needEof then [m] else [m, m]
  {
    SentIsQueued(p, q, handler, m);
    var answers := [Item(|p.sent|, m), Item(|p.sent| + 1, m)];
    WrittenThrough(p.items, answers);
    assert |p.popped| + |p.items| == |p.sent|;
    hide PipeInv, FirstClosing;
    assert q.sent[..|p.sent| + 1] == p.sent + [m];
  }

  /** Sending latches no queue. */
  lemma StillOpen(p: Pipe, q: Pipe, handler: bool)
    requires PipeInv(p, handler) && PipeInv(q, handler) && !Latched(p)
    requires q.done == p.done && q.popped == p.popped
    ensures !Latched(q)
  {
  }

  lemma AnswersDrain(p: Pipe, t: State, m: Message)
    requires Inv(t) && PipeInv(p, t.handler) && !Latched(p)
    requires t.pipe.sent == p.sent + [m, m] && t.pipe.popped == p.popped && t.pipe.done == p.done
    ensures var u := Run(t, Successes(|t.pipe.items|));
      && u.pipe.started == (if FirstClosing(p.items) < |p.items| then p.sent[..|p.popped| + FirstClosing(p.items) + 1]
                            else p.sent + if m.needEof then [m] else [m, m])
      && (m.needEof || FirstClosing(p.items) < |p.items| ==>
            forall es :: Run(u, es).pipe.started == u.pipe.started)
  {
    hide PipeInv, TimerInv, Run, Drained, Successes, Owners;
    StillOpen(p, t.pipe, t.handler);
    Drain(t);
    var u := Run(t, Successes(|t.pipe.items|));
    AnswersWritten(p, t.pipe, u.pipe, t.handler, m);
    RunKeepsInv(t, Successes(|t.pipe.items|));
    hide Inv, Latched;
    if Latched(u.pipe) {
      forall es
        ensures Run(u, es).pipe.started == u.pipe.started
      {
        LatchForever(u, es);
      }
    }
  }

  /**
    If the queue had not latched and the following writes succeed, a peer that speaks HTTP/1.1 gets both
    answers. Below that the first answer asks for the connection to close, so it is written and the second
    never is, however the run goes on; and neither is written behind a queued message that closes.
   */
  lemma FailedReadOnTheWire(s: State, code: Code, shut: Code, version: nat, regex: Regex, order: seq<string>)
    requires Inv(s) && s.reading > 0 && code != Ok && code != EndOfStream && !Latched(s.pipe)
    requires regex("", "").Some?
    requires Enumerates(order, ChainsOf(ServerTable(), Unknown).Keys)
    ensures forall path <- order :: path in ChainsOf(ServerTable(), Unknown)
    ensures var actions := ActionsOfOutcome(Dispatch(regex, ServerTable(), Unparsed(version), order));
      var t := Step(s, ReadDone(code, shut, actions));
      var u := Run(t, Successes(|t.pipe.items|));
      var answer, closing := Message("Not Found", version < 11), FirstClosing(s.pipe.items);
      && u.pipe.started == (if closing < |s.pipe.items| then s.pipe.sent[..|s.pipe.popped| + closing + 1]
                            else s.pipe.sent + if version < 11 then [answer] else [answer, answer])
      && (version < 11 || closing < |s.pipe.items| ==> forall es :: Run(u, es).pipe.started == u.pipe.started)
  {
    FailedReadAnsweredTwice(s, code, shut, version, regex, order);
    var actions := ActionsOfOutcome(Dispatch(regex, ServerTable(), Unparsed(version), order));
    var e := ReadDone(code, shut, actions);
    var t := Step(s, e);
    StepKeepsInv(s, e);
    hide PipeInv, TimerInv, Owners, Batch, Step, Dispatch, ActionsOfOutcome, ServerTable, ChainsOf, Shutdowns, Run;
    AnswersDrain(s.pipe, t, Message("Not Found", version < 11));
  }
}
