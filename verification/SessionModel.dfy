/**
  A session as a state machine over the events its strand runs one at a time. The functions below are
  the handlers of `session::impl`; `Step` adds the bookkeeping of the shared pointers that the bound
  completion handlers carry, and `Run` folds `Step` over any sequence of events.
 */
module SessionModel {
  import opened Messages
  import opened Pipeline

  /** The largest and smallest clock values; `expires_after` saturates at them. */
  const LAST_TIME: int := 0x7FFF_FFFF_FFFF_FFFF
  const FIRST_TIME: int := -0x8000_0000_0000_0000

  function Deadline(now: int, duration: int): (t: int)
    ensures FIRST_TIME <= t <= LAST_TIME
    ensures FIRST_TIME <= now + duration <= LAST_TIME ==> t == now + duration
  {
    if now + duration > LAST_TIME then LAST_TIME
    else if now + duration < FIRST_TIME then FIRST_TIME
    else now + duration
  }

  /** A timeout: when it was reported, and how many deadlines had been armed by then. */
  datatype Timeout = Timeout(at: int, armed: nat)

  /**
    The session timer. A wait is outstanding until its handler has run: `waiting` ones are still
    armed, `cancelled` ones have been cancelled by `cancel()` or by a new expiry. `armings` and
    `timeouts` are history.
   */
  datatype TimerState = TimerState(
    expiry: int,
    waiting: nat,
    cancelled: nat,
    armings: seq<int>,
    timeouts: seq<Timeout>)

  const IDLE_TIMER := TimerState(LAST_TIME, 0, 0, [], [])

  function ExpiresFromNow(t: TimerState, now: int, duration: int): TimerState
  {
    Cancel(t).(expiry := Deadline(now, duration), armings := t.armings + [Deadline(now, duration)])
  }

  /** `cancel` aborts the outstanding waits; it leaves the expiry as it is. */
  function Cancel(t: TimerState): TimerState
  {
    t.(waiting := 0, cancelled := t.cancelled + t.waiting)
  }

  function AsyncWait(t: TimerState): TimerState
  {
    t.(waiting := t.waiting + 1)
  }

  /** The socket of the connection: whether it is open and how often `shutdown` was called on it. */
  datatype LinkState = LinkState(open: bool, shutdowns: nat)

  datatype State = State(
    handler: bool,            // an error callback is installed
    now: int,                 // the steady clock
    reading: nat,             // outstanding reads
    timer: TimerState,
    link: LinkState,
    pipe: Pipe,
    reports: seq<Report>,     // calls of the error callback, oldest first
    posted: seq<Call>,        // calls posted to the strand from other threads
    contexts: nat,            // live session contexts held by user code
    refs: int,                // use count of the session's control block
    destroyed: bool)

  /** `init_context`: the only owner of a new session is the context that is returned. */
  function Start(handler: bool, open: bool, now: int): State
  {
    State(handler, now, 0, IDLE_TIMER, LinkState(open, 0), EMPTY_PIPE, [], [], 1, 1, false)
  }

  function ReportIf(s: State, code: Code, origin: Origin): State
  {
    if code != Ok && s.handler then s.(reports := s.reports + [Report(code, origin)]) else s
  }

  function DoTimer(s: State, duration: int): State
  {
    s.(timer := AsyncWait(ExpiresFromNow(s.timer, s.now, duration)), refs := s.refs + 1)
  }

  function DoRead(s: State): State
  {
    s.(reading := s.reading + 1, refs := s.refs + 1)
  }

  /** A message enters the queue; starting a write binds one more owner of the session. */
  function Enqueue(s: State, message: Message): State
  {
    var p := Push(s.pipe, message);
    s.(pipe := p, refs := s.refs + if |p.items| == 1 then 1 else 0)
  }

  /** `conn_queue::on_write`. */
  function Advance(s: State): State
  {
    var p := Pop(s.pipe);
    s.(pipe := p, refs := s.refs + if |p.items| > 0 then 1 else 0)
  }

  /** `shut` is the code that the socket's `shutdown` returns, if it is called. */
  function DoEof(s: State, shut: Code): State
  {
    if !s.link.open then s
    else ReportIf(s.(link := s.link.(shutdowns := s.link.shutdowns + 1)), shut, FromShutdown)
  }

  function OnTimer(s: State, code: Code, shut: Code): State
  {
    if code != Ok && code != Aborted then ReportIf(s, code, FromTimer)
    else if s.timer.expiry <= s.now then
      var late := s.(timer := s.timer.(timeouts := s.timer.timeouts + [Timeout(s.now, |s.timer.armings|)]));
      DoEof(ReportIf(late, TimedOut, FromTimer), shut)
    else s
  }

  function Perform(s: State, call: Call): State
  {
    match call
    case Recv => DoRead(s)
    case RecvWithin(duration) => DoRead(DoTimer(s, duration))
    case Send(message) => Enqueue(s, message)
    case SendWithin(message, duration) => Enqueue(DoTimer(s, duration), message)
  }

  function Act(s: State, action: Action): State
  {
    match action
    case Do(call) => Perform(s, call)
    case Keep => s.(contexts := s.contexts + 1, refs := s.refs + 1)
    case CloseStream => s.(link := s.link.(open := false))
    case Spend(ticks) => s.(now := s.now + ticks)
  }

  /** Handlers run on the strand, so their calls are dispatched inline, in order. */
  function ActAll(s: State, actions: seq<Action>): State
    decreases |actions|
  {
    if actions == [] then s else ActAll(Act(s, actions[0]), actions[1..])
  }

  /** `actions` is what the handlers that the dispatcher selects do. */
  function OnRead(s: State, code: Code, shut: Code, actions: seq<Action>): State
  {
    var quiet := s.(timer := Cancel(s.timer));
    if code == EndOfStream then DoEof(quiet, shut)
    else ActAll(ReportIf(quiet, code, FromRead), actions)
  }

  function OnWrite(s: State, code: Code, close: bool, shut: Code): State
  {
    var quiet := s.(timer := Cancel(s.timer));
    if code == EndOfStream then DoEof(quiet, shut)
    else if code != Ok && s.handler then ReportIf(quiet, code, FromWrite)
    else if close then DoEof(quiet, shut)
    else Advance(quiet)
  }

  /** The last owner destroys the session, and the connection's destructor shuts an open socket down. */
  function Release(s: State): State
  {
    var r := s.(refs := s.refs - 1);
    if r.refs != 0 then r
    else if r.link.open then r.(destroyed := true, link := r.link.(shutdowns := r.link.shutdowns + 1))
    else r.(destroyed := true)
  }

  /** What the environment may do next. Codes, completion order and timing are unconstrained. */
  datatype Event =
    | Tick(ticks: nat)
    | Post(call: Call)
    | RunPosted
    | CopyContext
    | DropContext
    | StreamClosed
    | ReadDone(code: Code, shut: Code, actions: seq<Action>)
    | WriteDone(index: nat, code: Code, shut: Code)
    | TimerDone(wasCancelled: bool, code: Code, shut: Code)

  /** A completion runs only for an operation that is outstanding, and user code needs a live context. */
  predicate Enabled(s: State, e: Event)
  {
    match e
    case Tick(_) => true
    case Post(_) => s.contexts > 0
    case RunPosted => s.posted != []
    case CopyContext => s.contexts > 0
    case DropContext => s.contexts > 0
    case StreamClosed => s.contexts > 0
    case ReadDone(_, _, _) => s.reading > 0
    case WriteDone(index, _, _) => index < |s.pipe.flights|
    case TimerDone(wasCancelled, code, _) =>
      if wasCancelled then s.timer.cancelled > 0 else s.timer.waiting > 0 && code != Aborted
  }

  /** One event; an event that is not enabled cannot happen and changes nothing. */
  function Step(s: State, e: Event): State
  {
    if !Enabled(s, e) then s else
    match e
    case Tick(ticks) => s.(now := s.now + ticks)
    case Post(call) => s.(posted := s.posted + [call], refs := s.refs + 1)
    case RunPosted => Release(Perform(s.(posted := s.posted[1..]), s.posted[0]))
    case CopyContext => s.(contexts := s.contexts + 1, refs := s.refs + 1)
    case DropContext => Release(s.(contexts := s.contexts - 1))
    case StreamClosed => s.(link := s.link.(open := false))
    case ReadDone(code, shut, actions) => Release(OnRead(s.(reading := s.reading - 1), code, shut, actions))
    case WriteDone(index, code, shut) =>
      var landed := s.(pipe := Land(s.pipe, index, code));
      Release(OnWrite(landed, code, s.pipe.flights[index].close, shut))
    case TimerDone(wasCancelled, code, shut) =>
      Release(OnTimer(s.(timer := TakeWait(s.timer, wasCancelled)), code, shut))
  }

  lemma ReadDoneStep(s: State, code: Code, shut: Code, actions: seq<Action>)
    requires s.reading > 0
    ensures Step(s, ReadDone(code, shut, actions)) == Release(OnRead(s.(reading := s.reading - 1), code, shut, actions))
  {
  }

  lemma WriteDoneStep(s: State, index: nat, code: Code, shut: Code)
    requires index < |s.pipe.flights|
    ensures Step(s, WriteDone(index, code, shut))
         == Release(OnWrite(s.(pipe := Land(s.pipe, index, code)), code, s.pipe.flights[index].close, shut))
  {
  }

  function TakeWait(t: TimerState, wasCancelled: bool): TimerState
    requires if wasCancelled then t.cancelled > 0 else t.waiting > 0
  {
    if wasCancelled then t.(cancelled := t.cancelled - 1) else t.(waiting := t.waiting - 1)
  }

  function Run(s: State, es: seq<Event>): State
    decreases |es|
  {
    if es == [] then s else Run(Step(s, es[0]), es[1..])
  }

  lemma {:induction false} RunAppend(s: State, a: seq<Event>, b: seq<Event>)
    ensures Run(s, a + b) == Run(Run(s, a), b)
    decreases |a|
  {
    if a == [] {
      assert a + b == b;
    } else {
      assert (a + b)[1..] == a[1..] + b;
      RunAppend(Step(s, a[0]), a[1..], b);
    }
  }

  lemma ActAllNothing(s: State)
    ensures ActAll(s, []) == s
  {
  }

  lemma {:induction false} ActAllAppend(s: State, a: seq<Action>, b: seq<Action>)
    ensures ActAll(s, a + b) == ActAll(ActAll(s, a), b)
    decreases |a|
  {
    if a == [] {
      assert a + b == b;
    } else {
      assert (a + b)[1..] == a[1..] + b;
      ActAllAppend(Act(s, a[0]), a[1..], b);
    }
  }
}
