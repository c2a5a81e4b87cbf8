/**
  The outbound side of a session: `conn_queue` together with the session's `do_write` and `on_write`.
  The queue starts a write only when a push makes its size exactly one, and pops only when `on_write`
  does not return early.
 */
module Pipeline {
  import opened Common
  import opened Messages

  /** A queued work item; `id` stands for the identity of the heap object that owns the message. */
  datatype Item = Item(id: nat, message: Message)

  /** An `async_write` that has been started and not completed; `close` is bound when it starts. */
  datatype Flight = Flight(id: nat, close: bool)

  /**
    `items`, `serializer` (the item it refers to) and the outstanding writes, with the history of
    messages sent, popped and started and of the write completion codes.
   */
  datatype Pipe = Pipe(
    items: seq<Item>,
    serializer: Option<nat>,
    flights: seq<Flight>,
    sent: seq<Message>,
    popped: seq<Message>,
    started: seq<Message>,
    done: seq<Code>)

  const EMPTY_PIPE := Pipe([], None, [], [], [], [], [])

  function DoWrite(p: Pipe, item: Item): Pipe
  {
    p.(serializer := Some(item.id),
       flights := p.flights + [Flight(item.id, item.message.needEof)],
       started := p.started + [item.message])
  }

  function Push(p: Pipe, message: Message): Pipe
  {
    var q := p.(items := p.items + [Item(|p.sent|, message)], sent := p.sent + [message]);
    if |q.items| == 1 then DoWrite(q, q.items[0]) else q
  }

  /** Popping an empty `std::queue` is undefined; `CompleteKeepsInv` shows that it never happens. */
  function Pop(p: Pipe): Pipe
  {
    if p.items == [] then p else
    var q := p.(items := p.items[1..], popped := p.popped + [p.items[0].message]);
    if |q.items| > 0 then DoWrite(q, q.items[0]) else q
  }

  /** A write completion takes the flight out and records its code. */
  function Land(p: Pipe, index: nat, code: Code): Pipe
    requires index < |p.flights|
  {
    p.(flights := p.flights[..index] + p.flights[index + 1..], done := p.done + [code])
  }

  /** The three early returns of `on_write`: after any of them the queue is not popped. */
  predicate Terminal(code: Code, needEof: bool, handler: bool)
  {
    code == EndOfStream || (code != Ok && handler) || needEof
  }

  function Complete(p: Pipe, index: nat, code: Code, handler: bool): Pipe
    requires index < |p.flights|
  {
    var q := Land(p, index, code);
    if Terminal(code, p.flights[index].close, handler) then q else Pop(q)
  }

  /** The queue has work and nothing is being written: no push and no completion will start a write again. */
  predicate Latched(p: Pipe)
  {
    p.items != [] && p.flights == []
  }

  /** The inductive invariant of the outbound side, for a session whose error handler is set iff `handler`. */
  ghost predicate PipeInv(p: Pipe, handler: bool)
  {
    var n := |p.popped|;
    && |p.sent| == n + |p.items|
    && p.popped == p.sent[..n]
    && (forall i :: 0 <= i < |p.items| ==> p.items[i] == Item(n + i, p.sent[n + i]))
    && |p.flights| <= 1
    && (p.flights != [] ==>
          && p.items != []
          && p.flights[0] == Flight(p.items[0].id, p.items[0].message.needEof)
          && p.serializer == Some(p.items[0].id))
    && p.started == p.sent[..n + if p.items == [] then 0 else 1]
    && |p.done| == n + (if Latched(p) then 1 else 0)
    && (forall i :: 0 <= i < n ==> !Terminal(p.done[i], p.sent[i].needEof, handler))
    && (Latched(p) ==> Terminal(p.done[n], p.sent[n].needEof, handler))
  }

  lemma PushKeepsInv(p: Pipe, message: Message, handler: bool)
    requires PipeInv(p, handler)
    ensures PipeInv(Push(p, message), handler)
  {
  }

  lemma LandTerminalKeepsInv(p: Pipe, code: Code, handler: bool)
    requires PipeInv(p, handler) && p.flights != []
    requires Terminal(code, p.flights[0].close, handler)
    ensures PipeInv(Land(p, 0, code), handler)
  {
    var q := Land(p, 0, code);
    assert q == p.(flights := [], done := p.done + [code]);
    assert Latched(q) && !Latched(p) && q.done[|p.popped|] == code && q.done[..|p.done|] == p.done;
  }

  lemma LandPopLastKeepsInv(p: Pipe, code: Code, handler: bool)
    requires PipeInv(p, handler) && p.flights != [] && |p.items| == 1
    requires !Terminal(code, p.flights[0].close, handler)
    ensures PipeInv(Pop(Land(p, 0, code)), handler)
  {
    assert Pop(Land(p, 0, code)) == Pipe([], p.serializer, [], p.sent, p.sent, p.sent, p.done + [code]);
  }

  lemma LandPopNextKeepsInv(p: Pipe, code: Code, handler: bool)
    requires PipeInv(p, handler) && p.flights != [] && |p.items| > 1
    requires !Terminal(code, p.flights[0].close, handler)
    ensures PipeInv(Pop(Land(p, 0, code)), handler)
  {
    var n := |p.popped| + 1;
    assert p.sent[..n] == p.sent[..n - 1] + [p.items[0].message];
    assert p.sent[..n + 1] == p.sent[..n] + [p.items[1].message];
    var next := [Flight(n, p.sent[n].needEof)];
    assert Pop(Land(p, 0, code))
        == Pipe(p.items[1..], Some(n), next, p.sent, p.sent[..n], p.sent[..n + 1], p.done + [code]);
  }

  lemma CompleteKeepsInv(p: Pipe, index: nat, code: Code, handler: bool)
    requires PipeInv(p, handler) && index < |p.flights|
    ensures p.items != [] && PipeInv(Complete(p, index, code, handler), handler)
  {
    if Terminal(code, p.flights[0].close, handler) {
      LandTerminalKeepsInv(p, code, handler);
    } else if |p.items| == 1 {
      LandPopLastKeepsInv(p, code, handler);
    } else {
      LandPopNextKeepsInv(p, code, handler);
    }
  }

  /**
    The plain list specification of the output: everything sent, cut just after the first message
    whose completion is terminal, and as far as completions have let it advance.
   */
  function Cut(sent: seq<Message>, done: seq<Code>, handler: bool): seq<Message>
  {
    if sent == [] then []
    else if done == [] || Terminal(done[0], sent[0].needEof, handler) then [sent[0]]
    else [sent[0]] + Cut(sent[1..], done[1..], handler)
  }

  lemma {:induction false} CutAfter(sent: seq<Message>, done: seq<Code>, handler: bool, n: nat)
    requires n <= |done| && n <= |sent|
    requires forall i :: 0 <= i < n ==> !Terminal(done[i], sent[i].needEof, handler)
    requires |done| == n || (|done| > n && |sent| > n && Terminal(done[n], sent[n].needEof, handler))
    ensures Cut(sent, done, handler) == sent[..if |sent| > n then n + 1 else n]
  {
    if n > 0 {
      CutAfter(sent[1..], done[1..], handler, n - 1);
    }
  }

  /** The writes started are exactly the cut of what was sent, whatever the interleaving was. */
  lemma OutputIsCut(p: Pipe, handler: bool)
    requires PipeInv(p, handler)
    ensures p.started == Cut(p.sent, p.done, handler)
  {
    CutAfter(p.sent, p.done, handler, |p.popped|);
  }

  /** Nothing but the order of the sends and of the completion codes decides the outbound state. */
  lemma InterleavingIrrelevant(p: Pipe, q: Pipe, handler: bool)
    requires PipeInv(p, handler) && PipeInv(q, handler)
    requires p.sent == q.sent && p.done == q.done
    ensures p.items == q.items && p.flights == q.flights
    ensures p.popped == q.popped && p.started == q.started
  {
  }

  /** The latch is closed exactly when some completion was terminal. */
  lemma LatchedIffTerminal(p: Pipe, handler: bool)
    requires PipeInv(p, handler)
    ensures Latched(p) <==>
            exists i :: 0 <= i < |p.done| && i < |p.sent| && Terminal(p.done[i], p.sent[i].needEof, handler)
  {
  }

  // ----- Draining --------------------------------------------------------------------------------

  /** The position of the first queued message that asks for the connection to close, or the queue's length. */
  function FirstClosing(items: seq<Item>): (k: nat)
    ensures k <= |items|
    ensures forall i :: 0 <= i < k ==> !items[i].message.needEof
    ensures k < |items| ==> items[k].message.needEof
  {
    if items == [] || items[0].message.needEof then 0 else 1 + FirstClosing(items[1..])
  }

  /**
    `q` is `p` after its queue has been written up to and including the first closing message. The
    queue is then latched on that message, or empty and ready to start the next message at once.
   */
  ghost predicate Drained(p: Pipe, q: Pipe)
  {
    var k := FirstClosing(p.items);
    && q.items == p.items[k..] && q.flights == [] && q.sent == p.sent
    && |p.popped| + |p.items| == |p.sent|
    && q.popped == p.sent[..|p.popped| + k]
    && q.started == p.sent[..|p.popped| + if k < |p.items| then k + 1 else k]
    && (Latched(q) <==> k < |p.items|)
    && (k == |p.items| ==> forall m :: Push(q, m).started == q.started + [m])
  }

  lemma NothingToDrain(p: Pipe, handler: bool)
    requires PipeInv(p, handler) && p.items == []
    ensures Drained(p, p)
  {
  }

  lemma CompletedLast(p: Pipe, q: Pipe, handler: bool)
    requires PipeInv(p, handler) && p.flights != [] && p.items[0].message.needEof
    requires q == Complete(p, 0, Ok, handler)
    ensures Drained(p, q) && q.flights == []
  {
    assert q == Land(p, 0, Ok);
    assert FirstClosing(p.items) == 0 && p.items[0..] == p.items;
    assert p.popped == p.sent[..|p.popped|] && p.started == p.sent[..|p.popped| + 1];
    hide PipeInv, FirstClosing;
  }

  lemma CompletedOnce(p: Pipe, q: Pipe, handler: bool)
    requires PipeInv(p, handler) && p.flights != [] && !p.items[0].message.needEof
    requires q == Complete(p, 0, Ok, handler)
    ensures q.items == p.items[1..] && !Latched(q) && q.sent == p.sent && |q.popped| == |p.popped| + 1
  {
  }

  lemma DrainedOneMore(p: Pipe, q: Pipe, r: Pipe, handler: bool)
    requires PipeInv(p, handler) && p.items != [] && !p.items[0].message.needEof
    requires q.items == p.items[1..] && q.sent == p.sent && |q.popped| == |p.popped| + 1
    requires Drained(q, r)
    ensures Drained(p, r)
  {
    assert FirstClosing(p.items) == 1 + FirstClosing(q.items);
  }
}
