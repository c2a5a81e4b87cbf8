/** What travels through a session: messages, completion codes and the calls user code makes. */
module Messages {

  /** An HTTP message; `needEof` is its `need_eof()`: the connection must close after it. */
  datatype Message = Message(body: string, needEof: bool)

  /** A `boost::system::error_code` as far as the session tells codes apart. */
  datatype Code = Ok | EndOfStream | Aborted | TimedOut | Failure(value: int)

  /** The operations of a session context; durations are in clock ticks. */
  datatype Call =
    | Recv
    | RecvWithin(duration: int)
    | Send(message: Message)
    | SendWithin(message: Message, duration: int)

  /**
    What a handler does while it runs: calls on its context, keeping a copy of the context, closing the
    stream that the context gives it, taking time.
   */
  datatype Action =
    | Do(call: Call)
    | Keep
    | CloseStream
    | Spend(ticks: nat)

  /** Where an error callback was invoked from. */
  datatype Origin = FromTimer | FromRead | FromWrite | FromShutdown

  datatype Report = Report(code: Code, origin: Origin)

  predicate Closes(actions: seq<Action>)
  {
    CloseStream in actions
  }

  /** The messages a call hands to the outbound queue. */
  function SentBy(call: Call): (ms: seq<Message>)
  {
    if call.Send? || call.SendWithin? then [call.message] else []
  }

  /** The messages a handler hands to the outbound queue, in order. */
  function SentByAll(actions: seq<Action>): (ms: seq<Message>)
  {
    if actions == [] then []
    else (if actions[0].Do? then SentBy(actions[0].call) else []) + SentByAll(actions[1..])
  }

  lemma {:induction false} SentByAllAppend(a: seq<Action>, b: seq<Action>)
    ensures SentByAll(a + b) == SentByAll(a) + SentByAll(b)
    decreases |a|
  {
    if a == [] {
      assert a + b == b;
    } else {
      assert (a + b)[1..] == a[1..] + b;
      SentByAllAppend(a[1..], b);
    }
  }
}
