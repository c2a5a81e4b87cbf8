/** What reaches a server or a client from outside, and the events that it amounts to for one session. */
module Inputs {
  import opened Common
  import opened Messages
  import opened Chains
  import opened Routing
  import opened Pipeline
  import opened SessionModel
  import opened SessionInvariant
  import opened SessionTheorems

  /** A message that was read, a registration on the router, or one of the other events. */
  datatype Input =
    | Arrival(code: Code, shut: Code, message: Request)
    | Route(registration: Registration)
    | Plain(event: Event)

  /** The registrations among the inputs, in order. */
  function Registrations(inputs: seq<Input>): seq<Registration>
    decreases |inputs|
  {
    if |inputs| == 0 then []
    else
      var last := inputs[|inputs| - 1];
      Registrations(inputs[..|inputs| - 1]) + if last.Route? then [last.registration] else []
  }

  /** What the handlers do for a message, if the resources are visited in the given order. */
  ghost function Reaction(server: bool, regex: Regex, table: Table, message: Request, order: seq<string>): seq<Action>
  {
    if !server then UnknownActions(table, message)
    else if forall path <- order :: path in ChainsOf(table, message.verb) then
      ActionsOfOutcome(Dispatch(regex, table, message, order))
    else []
  }

  /** A client gives every message to the chain registered last for responses, if there is one. */
  lemma ClientReaction(regex: Regex, log: seq<Registration>, message: Request, order: seq<string>)
    ensures Reaction(false, regex, Replay(map[], log), message, order)
         == match LastFor(log, Unknown, "")
            case None => []
            case Some(chain) => Execute(chain, message, Empty, []).actions
  {
    hide Execute, Replay, LastFor;
    ReplayKeepsLast(map[], log, Unknown, "");
  }

  ghost predicate IsOrder(server: bool, table: Table, message: Request, order: seq<string>)
  {
    var chains := ChainsOf(table, message.verb);
    server ==> Enumerates(order, chains.Keys) && forall path <- order :: path in chains
  }

  /**
    The event that an input amounts to in state `s`, if the router holds `table`: a message that a read
    was waiting for becomes what its handlers do, in some order of the resources. A registration does
    nothing to the session.
   */
  ghost predicate Realises(server: bool, regex: Regex, table: Table, s: State, input: Input, event: Event)
  {
    match input
    case Plain(e) => event == e
    case Route(_) => event == Tick(0)
    case Arrival(code, shut, message) =>
      && event.ReadDone? && event.code == code && event.shut == shut
      && (s.reading > 0 && code != EndOfStream ==>
            exists order ::
              IsOrder(server, table, message, order) && event.actions == Reaction(server, regex, table, message, order))
  }

  /**
    Every input is realised by its event: input `i` in the state that the events before it lead to, and
    with the table that the registrations before it make.
   */
  ghost predicate RealisesAll(server: bool, regex: Regex, base: Table, log: seq<Registration>, s: State,
                              inputs: seq<Input>, events: seq<Event>)
  {
    && |events| == |inputs|
    && forall i :: 0 <= i < |inputs| ==>
         Realises(server, regex, Replay(base, log + Registrations(inputs[..i])),
                  Run(s, events[..i]), inputs[i], events[i])
  }

  lemma RealisesOneMore(server: bool, regex: Regex, base: Table, log: seq<Registration>, s: State,
                        inputs: seq<Input>, events: seq<Event>, n: nat, event: Event)
    requires n == |events| < |inputs| && RealisesAll(server, regex, base, log, s, inputs[..n], events)
    requires Realises(server, regex, Replay(base, log + Registrations(inputs[..n])),
                      Run(s, events), inputs[n], event)
    ensures RealisesAll(server, regex, base, log, s, inputs[..n + 1], events + [event])
    ensures Registrations(inputs[..n + 1]) == Registrations(inputs[..n]) + Registrations([inputs[n]])
    ensures Run(s, events + [event]) == Step(Run(s, events), event)
  {
    hide Realises, Replay, Step;
    RunAppend(s, events, [event]);
    assert [event][1..] == [] && inputs[..n + 1][..n] == inputs[..n] && [inputs[n]][..0] == [];
    assert (events + [event])[..n] == events;
    hide Registrations, Run;
    forall i | 0 <= i <= n
      ensures Realises(server, regex, Replay(base, log + Registrations(inputs[..n + 1][..i])),
                       Run(s, (events + [event])[..i]), inputs[..n + 1][i], (events + [event])[i])
    {
      assert inputs[..n + 1][..i] == inputs[..n][..i] && (events + [event])[..i] == events[..i];
    }
  }

  // ----- The output of a server ----------------------------------------------------------------

  /**
    What a server hands to a session's queue for an input, if `before` happened since `start`: the
    responses of one dispatch over the table as registered by then, or the message of the posted call
    whose turn it is.
   */
  ghost predicate Answers(regex: Regex, table: Table, start: State, before: seq<Event>, input: Input,
                          batch: seq<Message>)
  {
    match input
    case Arrival(code, _, message) =>
      if Run(start, before).reading == 0 || code == EndOfStream then batch == []
      else
        exists order ::
          && Enumerates(order, ChainsOf(table, message.verb).Keys)
          && (forall path <- order :: path in ChainsOf(table, message.verb))
          && batch == Responses(regex, table, message, order)
    case Plain(RunPosted) => batch == NextPosted(start, before)
    case _ => batch == []
  }

  lemma BatchOfRead(s: State, e: Event)
    ensures e.ReadDone? ==> Batch(s, e) == if s.reading == 0 || e.code == EndOfStream then [] else SentByAll(e.actions)
    ensures e.RunPosted? ==> Batch(s, e) == if s.posted == [] then [] else SentBy(s.posted[0])
    ensures !e.ReadDone? && !e.RunPosted? ==> Batch(s, e) == []
  {
  }

  lemma RealisedAnswers(regex: Regex, table: Table, start: State, before: seq<Event>, input: Input, event: Event)
    requires start.posted == []
    requires Realises(true, regex, table, Run(start, before), input, event)
    requires input.Plain? ==> !input.event.ReadDone?
    ensures Answers(regex, table, start, before, input, Batch(Run(start, before), event))
  {
    hide Dispatch, ActionsOfOutcome, ChainsOf, Enumerates, SentByAll, Run, NextPosted, Batch;
    var s := Run(start, before);
    NextPostedIsFront(start, before);
    BatchOfRead(s, event);
    if input.Arrival? && s.reading > 0 && input.code != EndOfStream {
      var order :| IsOrder(true, table, input.message, order)
                   && event.actions == Reaction(true, regex, table, input.message, order);
      assert Batch(s, event) == Responses(regex, table, input.message, order);
    }
  }

  /**
    Registrations, dispatch and the wire in one: on a new session of a server without registrations, any
    inputs put on the wire the answers to them, one after the other, each from the table as registered by
    then, cut just after the first message whose write is terminal.
   */
  lemma AnswersOnTheWire(regex: Regex, handler: bool, open: bool, now: int, inputs: seq<Input>, events: seq<Event>)
    returns (answers: seq<seq<Message>>)
    requires RealisesAll(true, regex, ServerTable(), [], Start(handler, open, now), inputs, events)
    requires forall input <- inputs :: input.Plain? ==> !input.event.ReadDone?
    ensures var s := Start(handler, open, now);
      && |answers| == |inputs|
      && (forall i :: 0 <= i < |inputs| ==>
            Answers(regex, Replay(ServerTable(), Registrations(inputs[..i])), s, events[..i], inputs[i], answers[i]))
      && Run(s, events).pipe.started == Cut(Flatten(answers), WriteCodes(s, events), handler)
  {
    var s := Start(handler, open, now);
    answers := Batches(s, events);
    OutputOfRun(handler, open, now, events);
    assert s.posted == [];
    hide Run, Start, Replay, Registrations, Answers, Realises, ServerTable, Batches, Batch;
    forall i | 0 <= i < |inputs|
      ensures Answers(regex, Replay(ServerTable(), Registrations(inputs[..i])), s, events[..i], inputs[i], answers[i])
    {
      BatchAt(s, events, i);
      assert [] + Registrations(inputs[..i]) == Registrations(inputs[..i]);
      RealisedAnswers(regex, Replay(ServerTable(), Registrations(inputs[..i])), s, events[..i], inputs[i], events[i]);
    }
  }
}
