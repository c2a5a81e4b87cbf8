/** What every event keeps, and so what holds in every state a session can reach. */
module SessionInvariant {
  import opened Messages
  import opened Pipeline
  import opened SessionModel

  /** Everything that holds a shared pointer to the session. The queue's back-reference is not among them. */
  function Owners(s: State): nat
  {
    s.contexts + |s.posted| + s.reading + |s.pipe.flights| + s.timer.waiting + s.timer.cancelled
  }

  ghost predicate TimerInv(t: TimerState, now: int)
  {
    && t.waiting <= 1 && |t.timeouts| + t.waiting + t.cancelled <= |t.armings|
    && t.expiry == (if t.armings == [] then LAST_TIME else t.armings[|t.armings| - 1])
    && (forall k :: 0 <= k < |t.timeouts| ==>
          1 <= t.timeouts[k].armed <= |t.armings| && t.armings[t.timeouts[k].armed - 1] <= t.timeouts[k].at <= now)
  }

  /** Holds between events. */
  ghost predicate Inv(s: State)
  {
    && PipeInv(s.pipe, s.handler)
    && TimerInv(s.timer, s.now)
    && s.refs == Owners(s)
    && (s.destroyed <==> s.refs == 0)
  }

  /** Holds while a handler runs: the running handler is one more owner. */
  ghost predicate Busy(s: State)
  {
    && PipeInv(s.pipe, s.handler)
    && TimerInv(s.timer, s.now)
    && s.refs == Owners(s) + 1
    && !s.destroyed
  }

  /** The pipe after `messages` were handed over and no write completed. */
  ghost predicate Grown(p: Pipe, q: Pipe, messages: seq<Message>)
  {
    && q.sent == p.sent + messages && q.done == p.done && q.popped == p.popped
    && (p.items != [] ==> q.flights == p.flights && q.serializer == p.serializer)
  }

  /** The messages that an event hands to the queue in state `s`. */
  function Batch(s: State, e: Event): seq<Message>
  {
    if !Enabled(s, e) then []
    else match e
      case RunPosted => SentBy(s.posted[0])
      case ReadDone(code, _, actions) => if code == EndOfStream then [] else SentByAll(actions)
      case _ => []
  }

  /**
    What the calls of a handler can and cannot change; `messages` are the ones they hand to the queue, and
    `closes` says whether they close the stream.
   */
  ghost predicate OnlyCalls(s: State, t: State, messages: seq<Message>, closes: bool)
  {
    && t.handler == s.handler && t.link == s.link.(open := s.link.open && !closes) && t.reports == s.reports
    && t.posted == s.posted && t.destroyed == s.destroyed && s.now <= t.now
    && t.timer.timeouts == s.timer.timeouts && s.timer.armings <= t.timer.armings
    && Grown(s.pipe, t.pipe, messages)
  }

  lemma TimerInvLater(t: TimerState, now: int, ticks: nat)
    requires TimerInv(t, now)
    ensures TimerInv(t, now + ticks)
  {
  }

  lemma EnqueueKeepsBusy(s: State, message: Message)
    requires Busy(s)
    ensures Busy(Enqueue(s, message)) && OnlyCalls(s, Enqueue(s, message), [message], false)
  {
    PushKeepsInv(s.pipe, message, s.handler);
  }

  lemma DoReadKeepsBusy(s: State)
    requires Busy(s)
    ensures Busy(DoRead(s)) && OnlyCalls(s, DoRead(s), [], false)
  {
    hide PipeInv, TimerInv;
  }

  lemma DoTimerKeepsBusy(s: State, duration: int)
    requires Busy(s)
    ensures Busy(DoTimer(s, duration)) && OnlyCalls(s, DoTimer(s, duration), [], false)
  {
    hide PipeInv;
  }

  lemma OnlyCallsTwice(s: State, t: State, u: State, a: seq<Message>, b: seq<Message>, closesA: bool, closesB: bool)
    requires Busy(s) && OnlyCalls(s, t, a, closesA)
    requires Busy(t) && OnlyCalls(t, u, b, closesB)
    ensures OnlyCalls(s, u, a + b, closesA || closesB)
  {
    assert s.pipe.items != [] ==> t.pipe.items != [];
    assert (s.pipe.sent + a) + b == s.pipe.sent + (a + b);
    hide PipeInv, TimerInv;
  }

  lemma PerformKeepsBusy(s: State, call: Call)
    requires Busy(s)
    ensures Busy(Perform(s, call)) && OnlyCalls(s, Perform(s, call), SentBy(call), false)
  {
    hide Busy, OnlyCalls, DoRead, DoTimer, Enqueue;
    match call
    case Recv => DoReadKeepsBusy(s);
    case RecvWithin(duration) =>
      DoTimerKeepsBusy(s, duration);
      DoReadKeepsBusy(DoTimer(s, duration));
      OnlyCallsTwice(s, DoTimer(s, duration), Perform(s, call), [], [], false, false);
      assert [] + [] == SentBy(call);
    case Send(message) => EnqueueKeepsBusy(s, message);
    case SendWithin(message, duration) =>
      DoTimerKeepsBusy(s, duration);
      EnqueueKeepsBusy(DoTimer(s, duration), message);
      OnlyCallsTwice(s, DoTimer(s, duration), Perform(s, call), [], [message], false, false);
      assert [] + [message] == SentBy(call);
  }

  lemma ActKeepsBusy(s: State, action: Action)
    requires Busy(s)
    ensures Busy(Act(s, action))
    ensures OnlyCalls(s, Act(s, action), if action.Do? then SentBy(action.call) else [], action.CloseStream?)
  {
    if action.Do? {
      PerformKeepsBusy(s, action.call);
      hide *;
    } else if action.Spend? {
      TimerInvLater(s.timer, s.now, action.ticks);
    }
    hide PipeInv, TimerInv, Perform;
  }

  lemma {:induction false} ActAllKeepsBusy(s: State, actions: seq<Action>)
    requires Busy(s)
    ensures Busy(ActAll(s, actions)) && OnlyCalls(s, ActAll(s, actions), SentByAll(actions), Closes(actions))
    decreases |actions|
  {
    if actions == [] {
    } else {
      hide Busy, OnlyCalls, Act;
      var t := Act(s, actions[0]);
      ActKeepsBusy(s, actions[0]);
      ActAllKeepsBusy(t, actions[1..]);
      OnlyCallsTwice(s, t, ActAll(t, actions[1..]),
                     if actions[0].Do? then SentBy(actions[0].call) else [], SentByAll(actions[1..]),
                     actions[0].CloseStream?, Closes(actions[1..]));
    }
  }

  lemma QuietKeepsBusy(s: State)
    requires Busy(s)
    ensures Busy(s.(timer := Cancel(s.timer)))
  {
    hide PipeInv;
  }

  lemma ReportKeepsBusy(s: State, code: Code, origin: Origin)
    requires Busy(s)
    ensures Busy(ReportIf(s, code, origin))
  {
    hide PipeInv, TimerInv;
  }

  /** Ending the connection and reporting errors touch nothing else. */
  lemma DoEofEffects(s: State, shut: Code)
    ensures var t := DoEof(s, shut); t.(link := s.link, reports := s.reports) == s
  {
  }

  lemma EofKeepsBusy(s: State, shut: Code)
    requires Busy(s)
    ensures Busy(DoEof(s, shut))
  {
    DoEofEffects(s, shut);
    hide PipeInv, TimerInv, DoEof;
  }

  lemma OnReadKeepsBusy(s: State, code: Code, shut: Code, actions: seq<Action>)
    requires Busy(s)
    ensures var t := OnRead(s, code, shut, actions);
      && Busy(t) && t.handler == s.handler
      && Grown(s.pipe, t.pipe, if code == EndOfStream then [] else SentByAll(actions))
  {
    hide PipeInv, TimerInv, Busy;
    var quiet := s.(timer := Cancel(s.timer));
    QuietKeepsBusy(s);
    if code == EndOfStream {
      EofKeepsBusy(quiet, shut);
      DoEofEffects(quiet, shut);
      hide DoEof;
    } else {
      ReportKeepsBusy(quiet, code, FromRead);
      ActAllKeepsBusy(ReportIf(quiet, code, FromRead), actions);
      hide ActAll;
    }
  }

  lemma LateTimerInv(t: TimerState, now: int, wasCancelled: bool)
    requires TimerInv(t, now) && (if wasCancelled then t.cancelled > 0 else t.waiting > 0) && t.expiry <= now
    ensures var u := TakeWait(t, wasCancelled);
      TimerInv(u.(timeouts := u.timeouts + [Timeout(now, |u.armings|)]), now)
  {
  }

  lemma TakenTimerInv(t: TimerState, now: int, wasCancelled: bool)
    requires TimerInv(t, now) && (if wasCancelled then t.cancelled > 0 else t.waiting > 0)
    ensures TimerInv(TakeWait(t, wasCancelled), now)
  {
  }

  lemma WaitTaken(s: State, wasCancelled: bool)
    requires Inv(s) && (if wasCancelled then s.timer.cancelled > 0 else s.timer.waiting > 0)
    ensures Busy(s.(timer := TakeWait(s.timer, wasCancelled)))
  {
    TakenTimerInv(s.timer, s.now, wasCancelled);
    hide PipeInv, TimerInv;
  }

  lemma OnTimerKeepsBusy(s: State, wasCancelled: bool, code: Code, shut: Code)
    requires Inv(s) && Enabled(s, TimerDone(wasCancelled, code, shut))
    ensures var t := OnTimer(s.(timer := TakeWait(s.timer, wasCancelled)), code, shut);
      Busy(t) && t.handler == s.handler && t.pipe == s.pipe
  {
    var r := s.(timer := TakeWait(s.timer, wasCancelled));
    var late := r.(timer := r.timer.(timeouts := r.timer.timeouts + [Timeout(r.now, |r.timer.armings|)]));
    WaitTaken(s, wasCancelled);
    if code != Ok && code != Aborted {
      ReportKeepsBusy(r, code, FromTimer);
    } else if s.timer.expiry <= s.now {
      LateTimerInv(s.timer, s.now, wasCancelled);
      assert Busy(late) by {
        hide PipeInv, TimerInv;
      }
      ReportKeepsBusy(late, TimedOut, FromTimer);
      EofKeepsBusy(ReportIf(late, TimedOut, FromTimer), shut);
      DoEofEffects(ReportIf(late, TimedOut, FromTimer), shut);
    }
    hide Inv, Busy, DoEof;
  }

  /** `on_write` after the only flight has landed: it owns as many new flights as it starts. */
  lemma OnWriteCounts(landed: State, code: Code, close: bool, shut: Code)
    requires landed.pipe.flights == []
    ensures var t := OnWrite(landed, code, close, shut);
      && t.pipe == (if Terminal(code, close, landed.handler) then landed.pipe else Pop(landed.pipe))
      && t.refs == landed.refs + |t.pipe.flights|
      && t.timer == Cancel(landed.timer)
      && t.(pipe := landed.pipe, refs := landed.refs, timer := landed.timer,
            link := landed.link, reports := landed.reports) == landed
  {
  }

  lemma OnWriteKeepsBusy(s: State, index: nat, code: Code, shut: Code)
    requires Inv(s) && index < |s.pipe.flights|
    ensures var t := OnWrite(s.(pipe := Land(s.pipe, index, code)), code, s.pipe.flights[index].close, shut);
      Busy(t) && t.handler == s.handler && t.pipe == Complete(s.pipe, index, code, s.handler)
  {
    assert |s.pipe.flights| == 1;
    hide PipeInv, OnWrite;
    CompleteKeepsInv(s.pipe, index, code, s.handler);
    OnWriteCounts(s.(pipe := Land(s.pipe, index, code)), code, s.pipe.flights[index].close, shut);
  }

  /** `on_write` pops only what is there. */
  lemma FlightHasItem(s: State)
    requires Inv(s) && s.pipe.flights != []
    ensures s.pipe.items != []
  {
  }

  lemma ReleaseKeepsInv(s: State)
    requires Busy(s)
    ensures var t := Release(s);
      && Inv(t) && t.handler == s.handler && t.pipe == s.pipe && t.timer == s.timer
      && (t.destroyed <==> Owners(s) == 0)
  {
    hide PipeInv, TimerInv;
  }

  lemma StepKeepsInv(s: State, e: Event)
    requires Inv(s)
    ensures var t := Step(s, e);
      && Inv(t) && t.handler == s.handler
      && (if e.WriteDone? && Enabled(s, e) then t.pipe == Complete(s.pipe, e.index, e.code, s.handler)
          else Grown(s.pipe, t.pipe, Batch(s, e)))
  {
    hide PipeInv, TimerInv, Complete, OnRead, OnWrite, OnTimer, Perform, Release;
    if Enabled(s, e) {
      match e
      case Tick(ticks) => TimerInvLater(s.timer, s.now, ticks);
      case Post(_) =>
      case RunPosted =>
        PerformKeepsBusy(s.(posted := s.posted[1..]), s.posted[0]);
        ReleaseKeepsInv(Perform(s.(posted := s.posted[1..]), s.posted[0]));
      case CopyContext =>
      case DropContext =>
        ReleaseKeepsInv(s.(contexts := s.contexts - 1));
      case StreamClosed =>
      case ReadDone(code, shut, actions) =>
        OnReadKeepsBusy(s.(reading := s.reading - 1), code, shut, actions);
        ReleaseKeepsInv(OnRead(s.(reading := s.reading - 1), code, shut, actions));
      case WriteDone(index, code, shut) =>
        OnWriteKeepsBusy(s, index, code, shut);
        ReleaseKeepsInv(OnWrite(s.(pipe := Land(s.pipe, index, code)), code, s.pipe.flights[index].close, shut));
      case TimerDone(wasCancelled, code, shut) =>
        OnTimerKeepsBusy(s, wasCancelled, code, shut);
        ReleaseKeepsInv(OnTimer(s.(timer := TakeWait(s.timer, wasCancelled)), code, shut));
    }
  }

  lemma {:induction false} RunKeepsInv(s: State, es: seq<Event>)
    requires Inv(s)
    ensures Inv(Run(s, es))
    decreases |es|
  {
    if es != [] {
      StepKeepsInv(s, es[0]);
      RunKeepsInv(Step(s, es[0]), es[1..]);
    }
  }

  lemma StartInv(handler: bool, open: bool, now: int)
    ensures Inv(Start(handler, open, now))
  {
  }

  /** Every session starts in the invariant, so every reachable state has it. */
  lemma ReachableInv(handler: bool, open: bool, now: int, es: seq<Event>)
    ensures Inv(Run(Start(handler, open, now), es))
  {
    StartInv(handler, open, now);
    RunKeepsInv(Start(handler, open, now), es);
  }
}
