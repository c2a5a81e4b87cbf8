/** When a session times out, reports errors and shuts its socket down, event by event and over whole runs. */
module SessionEffects {
  import opened Common
  import opened Messages
  import opened Pipeline
  import opened SessionModel
  import opened SessionInvariant
  import opened SessionTheorems
  import opened Guards
  import opened SessionAccounting

  // ----- What one event does -----------------------------------------------------------------

  function Latest(armings: seq<int>): int
    requires armings != []
  {
    armings[|armings| - 1]
  }

  /** The deadline that was armed last has been reached. */
  predicate Late(s: State)
  {
    s.timer.armings != [] && Latest(s.timer.armings) <= s.now
  }

  /** A wait ends, expired or aborted; any other code is a failure of the timer itself. */
  predicate WaitEnds(s: State, e: Event)
  {
    e.TimerDone? && Enabled(s, e) && (e.code == Ok || e.code == Aborted)
  }

  predicate TimesOut(s: State, e: Event)
  {
    WaitEnds(s, e) && Late(s)
  }

  /** The terminal events: the ones that end the connection, in a session whose socket is open. */
  predicate Ends(s: State, e: Event)
  {
    Enabled(s, e) && s.link.open &&
    match e
    case ReadDone(code, _, _) => code == EndOfStream
    case WriteDone(index, code, _) =>
      code == EndOfStream || (s.pipe.flights[index].close && (code == Ok || !s.handler))
    case TimerDone(_, _, _) => TimesOut(s, e)
    case _ => false
  }

  /** User code closes the stream, on another thread or in a handler that a read dispatches to. */
  predicate ClosedBy(s: State, e: Event)
  {
    if e.StreamClosed? then s.contexts > 0
    else e.ReadDone? && s.reading > 0 && e.code != EndOfStream && Closes(e.actions)
  }

  /** The shutdown that the connection's destructor makes. */
  function Farewell(s: State): nat
  {
    if s.destroyed && s.link.open then 1 else 0
  }

  /** How often the session itself has shut its socket down. */
  function Shutdowns(s: State): int
  {
    s.link.shutdowns - Farewell(s)
  }

  /** The failure that an event brings, if any: the end of the stream and an aborted wait are none. */
  function Failures(s: State, e: Event): seq<Report>
  {
    match e
    case ReadDone(code, _, _) => if code == Ok || code == EndOfStream then [] else [Report(code, FromRead)]
    case WriteDone(_, code, _) => if code == Ok || code == EndOfStream then [] else [Report(code, FromWrite)]
    case TimerDone(_, code, _) =>
      if TimesOut(s, e) then [Report(TimedOut, FromTimer)]
      else if code == Ok || code == Aborted then []
      else [Report(code, FromTimer)]
    case _ => []
  }

  /** The calls of the error callback that an event makes: its failure, then that of the shutdown it caused. */
  function ReportsOf(s: State, e: Event): seq<Report>
  {
    if !Enabled(s, e) || !s.handler then []
    else Failures(s, e) + if Ends(s, e) && e.shut != Ok then [Report(e.shut, FromShutdown)] else []
  }

  // ----- The handlers ------------------------------------------------------------------------

  /** What the end of a stream adds to the reports. */
  function EofReports(s: State, shut: Code): seq<Report>
  {
    if s.link.open && shut != Ok && s.handler then [Report(shut, FromShutdown)] else []
  }

  lemma OnReadEffects(s: State, code: Code, shut: Code, actions: seq<Action>)
    requires Busy(s)
    ensures var t := OnRead(s, code, shut, actions);
      && !t.destroyed && s.now <= t.now && t.timer.timeouts == s.timer.timeouts && s.timer.armings <= t.timer.armings
      && t.link.shutdowns == s.link.shutdowns + (if s.link.open && code == EndOfStream then 1 else 0)
      && t.link.open == (s.link.open && (code == EndOfStream || !Closes(actions)))
      && t.reports == s.reports +
           if code == EndOfStream then EofReports(s, shut)
           else if code != Ok && s.handler then [Report(code, FromRead)] else []
  {
    hide PipeInv;
    if code != EndOfStream {
      ActAllKeepsBusy(ReportIf(s.(timer := Cancel(s.timer)), code, FromRead), actions);
    }
  }

  lemma OnWriteEffects(s: State, code: Code, close: bool, shut: Code)
    ensures var t := OnWrite(s, code, close, shut);
      && t.destroyed == s.destroyed && t.now == s.now && t.timer == Cancel(s.timer)
      && t.link == s.link.(shutdowns := s.link.shutdowns +
           if s.link.open && (code == EndOfStream || (close && (code == Ok || !s.handler))) then 1 else 0)
      && t.reports == s.reports +
           if code != Ok && code != EndOfStream && s.handler then [Report(code, FromWrite)]
           else if code == EndOfStream || close then EofReports(s, shut)
           else []
  {
    hide Pop;
  }

  /** Before the deadline nothing happens; from then on the handler records, reports and shuts down. */
  lemma OnTimerEffects(s: State, code: Code, shut: Code)
    requires code == Ok || code == Aborted
    ensures s.now < s.timer.expiry ==> OnTimer(s, code, shut) == s
    ensures s.timer.expiry <= s.now ==>
      var t := OnTimer(s, code, shut);
      && t.destroyed == s.destroyed && t.now == s.now
      && t.timer == s.timer.(timeouts := s.timer.timeouts + [Timeout(s.now, |s.timer.armings|)])
      && t.link == s.link.(shutdowns := s.link.shutdowns + if s.link.open then 1 else 0)
      && t.reports == s.reports + (if s.handler then [Report(TimedOut, FromTimer)] else []) + EofReports(s, shut)
  {
  }

  lemma ReleaseEffects(s: State)
    ensures var t := Release(s);
      && t.timer == s.timer && t.now == s.now && t.reports == s.reports && t.link.open == s.link.open
      && (!s.destroyed ==> Shutdowns(t) == s.link.shutdowns)
  {
  }

  lemma DeadlineIsLatest(s: State)
    requires Inv(s) && s.timer.waiting + s.timer.cancelled > 0
    ensures Late(s) <==> s.timer.expiry <= s.now
  {
  }

  // ----- Every event -------------------------------------------------------------------------

  /** What `t` shows of an event that took a session from `s` to it. */
  ghost predicate Shows(s: State, e: Event, t: State)
  {
    && s.now <= t.now && s.timer.armings <= t.timer.armings
    && t.timer.timeouts == s.timer.timeouts + (if TimesOut(s, e) then [Timeout(s.now, |s.timer.armings|)] else [])
    && t.link.open == (s.link.open && !ClosedBy(s, e))
    && Shutdowns(t) == Shutdowns(s) + (if Ends(s, e) then 1 else 0)
    && t.reports == s.reports + ReportsOf(s, e)
  }

  lemma ReadShows(s: State, e: Event)
    requires Inv(s) && e.ReadDone? && Enabled(s, e)
    ensures Shows(s, e, Step(s, e))
  {
    hide PipeInv, TimerInv, OnRead, Release;
    var r := s.(reading := s.reading - 1);
    OnReadEffects(r, e.code, e.shut, e.actions);
    ReleaseEffects(OnRead(r, e.code, e.shut, e.actions));
  }

  lemma WriteShows(s: State, e: Event)
    requires Inv(s) && e.WriteDone? && Enabled(s, e)
    ensures Shows(s, e, Step(s, e))
  {
    hide PipeInv, TimerInv, OnWrite, Release;
    var landed, close := s.(pipe := Land(s.pipe, e.index, e.code)), s.pipe.flights[e.index].close;
    OnWriteEffects(landed, e.code, close, e.shut);
    ReleaseEffects(OnWrite(landed, e.code, close, e.shut));
  }

  lemma TimerShows(s: State, e: Event)
    requires Inv(s) && e.TimerDone? && Enabled(s, e)
    ensures Shows(s, e, Step(s, e))
  {
    DeadlineIsLatest(s);
    var r := s.(timer := TakeWait(s.timer, e.wasCancelled));
    if WaitEnds(s, e) {
      OnTimerEffects(r, e.code, e.shut);
    } else {
      assert OnTimer(r, e.code, e.shut) == ReportIf(r, e.code, FromTimer);
    }
    assert !s.destroyed && r.timer.armings == s.timer.armings && r.timer.timeouts == s.timer.timeouts;
    hide Inv, OnTimer, Release, Late;
    ReleaseEffects(OnTimer(r, e.code, e.shut));
  }

  lemma OtherShows(s: State, e: Event)
    requires Inv(s) && !e.ReadDone? && !e.WriteDone? && !e.TimerDone?
    ensures Shows(s, e, Step(s, e))
  {
    hide PipeInv, TimerInv, Release, Perform;
    if e.RunPosted? && Enabled(s, e) {
      var r := s.(posted := s.posted[1..]);
      PerformKeepsBusy(r, s.posted[0]);
      ReleaseEffects(Perform(r, s.posted[0]));
    } else if e.DropContext? && Enabled(s, e) {
      ReleaseEffects(s.(contexts := s.contexts - 1));
    }
  }

  lemma StepShows(s: State, e: Event)
    requires Inv(s)
    ensures Shows(s, e, Step(s, e))
  {
    if !Enabled(s, e) {
    } else {
      hide Inv, Shows, Step;
      if e.ReadDone? {
        ReadShows(s, e);
      } else if e.WriteDone? {
        WriteShows(s, e);
      } else if e.TimerDone? {
        TimerShows(s, e);
      } else {
        OtherShows(s, e);
      }
    }
  }

  /**
    A completed read or write cancels the wait that guarded it and keeps its deadline, unless the handlers
    set a new limit.
   */
  lemma CompletionCancelsWait(s: State, e: Event)
    requires Enabled(s, e) && (e.ReadDone? || e.WriteDone?) && EventGuards(s, e) == []
    ensures var t := Step(s, e).timer;
      && t.waiting == 0 && t.cancelled == s.timer.cancelled + s.timer.waiting
      && t.expiry == s.timer.expiry && t.armings == s.timer.armings
  {
    hide OnRead, OnWrite, Release, Land;
    match e
    case ReadDone(code, shut, actions) =>
      var r := s.(reading := s.reading - 1);
      ReadCancelsWait(r, code, shut, actions);
      ReleaseEffects(OnRead(r, code, shut, actions));
    case WriteDone(index, code, shut) =>
      var landed := s.(pipe := Land(s.pipe, index, code));
      OnWriteEffects(landed, code, s.pipe.flights[index].close, shut);
      ReleaseEffects(OnWrite(landed, code, s.pipe.flights[index].close, shut));
    case _ =>
  }

  lemma ReadCancelsWait(s: State, code: Code, shut: Code, actions: seq<Action>)
    requires code == EndOfStream || ActionGuards(s.now, actions) == []
    ensures OnRead(s, code, shut, actions).timer == Cancel(s.timer)
  {
    var quiet := s.(timer := Cancel(s.timer));
    if code == EndOfStream {
      DoEofEffects(quiet, shut);
    } else {
      NothingGuarded(ReportIf(quiet, code, FromRead), actions);
    }
    hide ActAll, DoEof;
  }

  lemma {:induction false} NothingGuarded(s: State, actions: seq<Action>)
    requires ActionGuards(s.now, actions) == []
    ensures ActAll(s, actions).timer == s.timer
    decreases |actions|
  {
    hide Push;
    if actions != [] {
      NothingGuarded(Act(s, actions[0]), actions[1..]);
    }
  }

  // ----- Timeouts ----------------------------------------------------------------------------

  /**
    Exactly when an event times the session out, and what can be seen of it: a wait ends, expired or
    aborted, at or past the deadline that was armed last. Then the error callback is told once, the open
    socket is shut down once and a failure of that is reported; otherwise the end of a wait shows nothing.
   */
  lemma TimesOutIff(handler: bool, open: bool, now: int, es: seq<Event>, e: Event)
    ensures var s := Run(Start(handler, open, now), es);
      var t := Step(s, e);
      && (|t.timer.timeouts| > |s.timer.timeouts| <==> WaitEnds(s, e) && Late(s))
      && (WaitEnds(s, e) ==>
            && t.reports == s.reports +
                 (if Late(s) && handler then [Report(TimedOut, FromTimer)] else []) +
                 (if Late(s) && handler && s.link.open && e.shut != Ok then [Report(e.shut, FromShutdown)] else [])
            && Shutdowns(t) == Shutdowns(s) + if Late(s) && s.link.open then 1 else 0)
  {
    var s := Run(Start(handler, open, now), es);
    ReachableInv(handler, open, now, es);
    RunHandler(Start(handler, open, now), es);
    StepShows(s, e);
    hide Inv, Run, Step, Late, Shutdowns, Enabled;
    assert Ends(s, e) && WaitEnds(s, e) ==> TimesOut(s, e);
  }

  /** The end of a wait can be seen in the error callback or at the socket. */
  predicate WaitShows(s: State, e: Event)
  {
    WaitEnds(s, e) && (Step(s, e).reports != s.reports || Shutdowns(Step(s, e)) != Shutdowns(s))
  }

  /**
    Lateness in the caller's terms, for a clock that starts no earlier than its smallest value: the latest
    call with a time limit has exceeded it.
   */
  lemma LateIffExpired(handler: bool, open: bool, now: int, es: seq<Event>)
    ensures var s := Run(Start(handler, open, now), es);
      && (Late(s) ==> Expired(GuardsOf(handler, open, now, es), s.now))
      && (FIRST_TIME <= now && Expired(GuardsOf(handler, open, now, es), s.now) ==> Late(s))
  {
    GuardsAreArmed(handler, open, now, es);
    ReachableInv(handler, open, now, es);
    ClockGoesOn(Start(handler, open, now), es);
    hide Run, GuardsOf, Inv;
  }

  lemma {:induction false} ClockGoesOn(s: State, es: seq<Event>)
    requires Inv(s)
    ensures s.now <= Run(s, es).now
    decreases |es|
  {
    if es != [] {
      StepShows(s, es[0]);
      StepKeepsInv(s, es[0]);
      hide Inv, Step;
      ClockGoesOn(Step(s, es[0]), es[1..]);
    }
  }

  /**
    Timeouts are never early: whenever in a run the end of a wait reports anything or shuts the socket
    down, some call with a time limit has run before, and the clock has reached the time of the latest one
    plus its duration (or the end of the clock's range). So a session none of whose calls had a time limit
    never times out. Nor do timeouts outnumber armings.
   */
  lemma TimeoutsNeverEarly(handler: bool, open: bool, now: int, es: seq<Event>)
    ensures forall k :: 0 <= k < |es| && WaitShows(Run(Start(handler, open, now), es[..k]), es[k]) ==>
              && Late(Run(Start(handler, open, now), es[..k]))
              && Expired(GuardsOf(handler, open, now, es[..k]), Run(Start(handler, open, now), es[..k]).now)
    ensures var t := Run(Start(handler, open, now), es).timer;
      && |t.timeouts| <= |t.armings|
      && forall k :: 0 <= k < |t.timeouts| ==>
           1 <= t.timeouts[k].armed <= |t.armings| && t.armings[t.timeouts[k].armed - 1] <= t.timeouts[k].at
  {
    ReachableInv(handler, open, now, es);
    hide Inv, Run, Late, WaitEnds, Shutdowns, Expired, GuardsOf;
    forall k | 0 <= k < |es| && WaitShows(Run(Start(handler, open, now), es[..k]), es[k])
      ensures Late(Run(Start(handler, open, now), es[..k]))
      ensures Expired(GuardsOf(handler, open, now, es[..k]), Run(Start(handler, open, now), es[..k]).now)
    {
      TimesOutIff(handler, open, now, es[..k], es[k]);
      LateIffExpired(handler, open, now, es[..k]);
    }
    TimeoutsInOrder(Run(Start(handler, open, now), es));
  }

  lemma TimeoutsInOrder(s: State)
    requires Inv(s)
    ensures var t := s.timer;
      && |t.timeouts| <= |t.armings|
      && forall k :: 0 <= k < |t.timeouts| ==>
           1 <= t.timeouts[k].armed <= |t.armings| && t.armings[t.timeouts[k].armed - 1] <= t.timeouts[k].at
  {
    hide PipeInv;
  }

  /** After any state, a timeout is measured against a deadline at least as recent as the one armed then. */
  lemma {:induction false} SupersededWaitsAreHarmless(s: State, es: seq<Event>)
    requires Inv(s)
    ensures var t := Run(s, es).timer;
      && s.timer.timeouts <= t.timeouts && s.timer.armings <= t.armings
      && (forall k :: |s.timer.timeouts| <= k < |t.timeouts| ==> |s.timer.armings| <= t.timeouts[k].armed)
    decreases |es|
  {
    if es != [] {
      StepShows(s, es[0]);
      StepKeepsInv(s, es[0]);
      hide Inv, Step, TimesOut;
      SupersededWaitsAreHarmless(Step(s, es[0]), es[1..]);
    }
  }

  lemma DeadlinePassed(s: State, k: nat)
    requires Inv(s) && k < |s.timer.timeouts| && s.timer.timeouts[k].armed >= |s.timer.armings|
    ensures s.timer.armings != [] && Latest(s.timer.armings) <= s.now
  {
    hide PipeInv;
    assert s.timer.timeouts[k].armed == |s.timer.armings|;
  }

  /** Between two armings, a timeout means that the clock has reached the deadline armed last. */
  lemma QuietUntilDeadline(s: State, es: seq<Event>)
    requires Inv(s) && s.timer.armings != []
    requires Run(s, es).timer.armings == s.timer.armings
    requires |Run(s, es).timer.timeouts| > |s.timer.timeouts|
    ensures Latest(s.timer.armings) <= Run(s, es).now
  {
    RunKeepsInv(s, es);
    SupersededWaitsAreHarmless(s, es);
    hide Run, Inv;
    DeadlinePassed(Run(s, es), |s.timer.timeouts|);
  }

  lemma RunOfThree(s: State, a: Event, b: Event, c: Event)
    ensures Run(s, [a, b, c]) == Step(Step(Step(s, a), b), c)
  {
    hide Step;
    var t, u := Step(s, a), Step(Step(s, a), b);
    assert [a, b, c][1..] == [b, c] && [b, c][1..] == [c];
    assert Run(u, [c]) == Run(Step(u, c), []);
    assert Run(t, [b, c]) == Run(u, [c]);
  }

  /**
    Completing the guarded operation does not disarm the deadline: `cancel` leaves the expiry as it
    is, so after every read that completes in time with nothing armed since, the aborted wait still
    times the session out if its handler runs late, tells the error callback and shuts the socket down.
   */
  lemma CompletedReadCanStillTimeOut(s: State)
    requires Inv(s) && s.reading > 0 && s.timer.waiting > 0 && s.now < s.timer.expiry
    ensures var t := Run(s, [ReadDone(Ok, Ok, []), Tick(s.timer.expiry - s.now), TimerDone(true, Aborted, Ok)]);
      && t.timer.armings == s.timer.armings
      && |t.timer.timeouts| == |s.timer.timeouts| + 1
      && t.reports == s.reports + (if s.handler then [Report(TimedOut, FromTimer)] else [])
      && Shutdowns(t) == Shutdowns(s) + if s.link.open then 1 else 0
  {
    var read, tick, wait := ReadDone(Ok, Ok, []), Tick(s.timer.expiry - s.now), TimerDone(true, Aborted, Ok);
    RunOfThree(s, read, tick, wait);
    PlainReadCancels(s);
    var u := Step(Step(s, read), tick);
    DeadlineIsLatest(u);
    hide Run, Step, Inv, Late;
    LateWaitTimesOut(u, wait);
  }

  /** A read that brings nothing, and then the clock reaches the deadline that it cancelled. */
  lemma PlainReadCancels(s: State)
    requires Inv(s) && s.reading > 0 && s.timer.waiting > 0 && s.now < s.timer.expiry
    ensures var u := Step(Step(s, ReadDone(Ok, Ok, [])), Tick(s.timer.expiry - s.now));
      && Inv(u) && u.timer == Cancel(s.timer) && u.now == s.timer.expiry && u.handler == s.handler
      && u.reports == s.reports && u.link.open == s.link.open && Shutdowns(u) == Shutdowns(s)
  {
    var read, tick := ReadDone(Ok, Ok, []), Tick(s.timer.expiry - s.now);
    var r := s.(reading := s.reading - 1);
    assert OnRead(r, Ok, Ok, []) == ActAll(r.(timer := Cancel(r.timer)), []);
    ReleaseEffects(OnRead(r, Ok, Ok, []));
    StepKeepsInv(s, read);
    StepShows(s, read);
    StepKeepsInv(Step(s, read), tick);
    hide PipeInv, TimerInv, Release, OnRead;
  }

  /** The end of a wait reports the timeout, shuts an open socket down, and arms nothing. */
  ghost predicate TimesOutAt(u: State, e: Event)
  {
    var t := Step(u, e);
    && WaitEnds(u, e)
    && t.timer.armings == u.timer.armings && |t.timer.timeouts| == |u.timer.timeouts| + 1
    && t.reports == u.reports + (if u.handler then [Report(TimedOut, FromTimer)] else [])
    && Shutdowns(t) == Shutdowns(u) + if u.link.open then 1 else 0
  }

  lemma LateWaitTimesOut(u: State, wait: Event)
    requires Inv(u) && Late(u) && WaitEnds(u, wait) && wait.shut == Ok
    ensures TimesOutAt(u, wait)
  {
    StepShows(u, wait);
    StepArms(u, wait);
    assert Deadlines(EventGuards(u, wait)) == [];
    hide Inv, Late, Shutdowns, Step, Deadlines;
  }

  // ----- A call with a time limit does time out ------------------------------------------------

  /** The handler of an outstanding wait runs next: of the armed one if there is one, else of a cancelled one. */
  function NextWait(s: State): Event
  {
    if s.timer.waiting > 0 then TimerDone(false, Ok, Ok) else TimerDone(true, Aborted, Ok)
  }

  /**
    As long as fewer handlers of waits have run than calls with a time limit have been made, the session
    times out with the next of these handlers if the latest call has exceeded its limit.
   */
  lemma ExpiredCallTimesOut(handler: bool, open: bool, now: int, es: seq<Event>)
    requires FIRST_TIME <= now
    requires Total(WaitsHandled, Start(handler, open, now), es) < |GuardsOf(handler, open, now, es)|
    requires Expired(GuardsOf(handler, open, now, es), Run(Start(handler, open, now), es).now)
    ensures var s := Run(Start(handler, open, now), es); TimesOutAt(s, NextWait(s))
  {
    var s := Run(Start(handler, open, now), es);
    WaitsAccounted(handler, open, now, es);
    LateIffExpired(handler, open, now, es);
    ReachableInv(handler, open, now, es);
    hide Run, Inv, Total, GuardsOf, Expired, Late, TimesOutAt;
    LateWaitTimesOut(s, NextWait(s));
  }

  /**
    A call with a time limit whose turn has come, then a peer that stays silent: whatever else happens
    while no other call sets a limit, the session times out once the clock has reached the deadline, with
    the next handler of a wait that is still to run. Nothing needs to happen but the clock going on.
   */
  lemma SilentPeerTimesOut(s: State, es: seq<Event>)
    requires Inv(s) && s.posted != [] && CallGuards(s.now, s.posted[0]) != []
    requires var t := Step(s, RunPosted);
      && Flatten(GuardHistory(t, es)) == [] && Total(WaitsHandled, t, es) < Waits(t.timer)
      && Deadline(s.now, s.posted[0].duration) <= Run(t, es).now
    ensures Waits(Step(s, RunPosted).timer) > 0
    ensures var u := Run(Step(s, RunPosted), es); TimesOutAt(u, NextWait(u))
  {
    hide Step, Run, Inv, Total, GuardHistory, Flatten, TimesOutAt, Deadline, Late;
    var t := Step(s, RunPosted);
    var u := Run(t, es);
    StepKeepsInv(s, RunPosted);
    RunKeepsInv(t, es);
    GuardArmsLast(s);
    NothingArmedSince(t, es);
    LastArmedIsLate(u);
    LateWaitTimesOut(u, NextWait(u));
  }

  lemma NothingArmedSince(t: State, es: seq<Event>)
    requires Flatten(GuardHistory(t, es)) == []
    ensures var u := Run(t, es);
      u.timer.armings == t.timer.armings && Waits(u.timer) + Total(WaitsHandled, t, es) == Waits(t.timer)
  {
    RunArms(t, es);
    RunBalances(t, es);
    GuardsCounted(t, es);
    assert Deadlines([]) == [];
    hide Run, Total, GuardHistory;
  }

  lemma LastArmedIsLate(u: State)
    requires u.timer.armings != [] && Latest(u.timer.armings) <= u.now
    ensures Late(u)
  {
  }

  lemma GuardArmsLast(s: State)
    requires s.posted != [] && CallGuards(s.now, s.posted[0]) != []
    ensures var t := Step(s, RunPosted);
      && t.timer.armings == s.timer.armings + [Deadline(s.now, s.posted[0].duration)]
      && Waits(t.timer) == Waits(s.timer) + 1
  {
    StepArms(s, RunPosted);
    StepBalances(s, RunPosted);
    hide Step, Deadline;
    assert Deadlines([Guard(s.now, s.posted[0].duration)]) == [Deadline(s.now, s.posted[0].duration)];
  }

  /** The plain case: only the clock goes on. */
  lemma SilenceTimesOut(s: State, ticks: nat)
    requires Inv(s) && s.posted != [] && CallGuards(s.now, s.posted[0]) != []
    requires Deadline(s.now, s.posted[0].duration) <= s.now + ticks
    ensures var u := Run(Step(s, RunPosted), [Tick(ticks)]); TimesOutAt(u, NextWait(u))
  {
    var t := Step(s, RunPosted);
    StepBalances(s, RunPosted);
    PostedKeepsClock(s);
    hide Step, TimesOutAt, Deadline;
    assert [Tick(ticks)][1..] == [];
    assert Run(t, [Tick(ticks)]) == Run(Step(t, Tick(ticks)), []) == Step(t, Tick(ticks));
    TickOnly(t, ticks);
    SilentPeerTimesOut(s, [Tick(ticks)]);
  }

  lemma PostedKeepsClock(s: State)
    requires s.posted != []
    ensures Step(s, RunPosted).now == s.now
  {
    var r := s.(posted := s.posted[1..]);
    PerformArms(r, s.posted[0]);
    ReleaseEffects(Perform(r, s.posted[0]));
    hide Perform, Release;
  }

  lemma TickOnly(t: State, ticks: nat)
    ensures Step(t, Tick(ticks)).now == t.now + ticks
    ensures Flatten(GuardHistory(t, [Tick(ticks)])) == [] && Total(WaitsHandled, t, [Tick(ticks)]) == 0
  {
    assert GuardHistory(Step(t, Tick(ticks)), []) == [];
    assert GuardHistory(t, [Tick(ticks)]) == [[]];
    assert GuardHistory(t, [Tick(ticks)])[1..] == [];
    assert Total(WaitsHandled, Step(t, Tick(ticks)), []) == 0;
  }

  // ----- Shutdowns and reports over a run ----------------------------------------------------

  function CountEnds(s: State, es: seq<Event>): nat
    decreases |es|
  {
    if es == [] then 0 else (if Ends(s, es[0]) then 1 else 0) + CountEnds(Step(s, es[0]), es[1..])
  }

  /** The reports that each event of a run makes. */
  function ReportHistory(s: State, es: seq<Event>): (rs: seq<seq<Report>>)
    ensures |rs| == |es|
    decreases |es|
  {
    if es == [] then [] else [ReportsOf(s, es[0])] + ReportHistory(Step(s, es[0]), es[1..])
  }

  lemma {:induction false} RunLink(s: State, es: seq<Event>)
    requires Inv(s)
    ensures var t := Run(s, es);
      (t.link.open ==> s.link.open) && Shutdowns(t) == Shutdowns(s) + CountEnds(s, es)
    decreases |es|
  {
    if es != [] {
      StepShows(s, es[0]);
      StepKeepsInv(s, es[0]);
      hide Inv, Step, Ends, Shutdowns;
      RunLink(Step(s, es[0]), es[1..]);
    }
  }

  /**
    Over every run the socket is shut down once for each terminal event and, if the session is
    destroyed while its socket is still open, once more by the destructor. Nothing reopens it.
   */
  lemma ShutdownsAccounted(handler: bool, open: bool, now: int, es: seq<Event>)
    ensures var s := Start(handler, open, now);
      var t := Run(s, es);
      && (t.link.open ==> open)
      && t.link.shutdowns == CountEnds(s, es) + if t.destroyed && t.link.open then 1 else 0
  {
    RunLink(Start(handler, open, now), es);
  }

  lemma {:induction false} RunReports(s: State, es: seq<Event>)
    requires Inv(s)
    ensures Run(s, es).reports == s.reports + Flatten(ReportHistory(s, es))
    decreases |es|
  {
    if es == [] {
      assert Flatten(ReportHistory(s, es)) == [];
    } else {
      var t := Step(s, es[0]);
      StepShows(s, es[0]);
      StepKeepsInv(s, es[0]);
      RunReports(t, es[1..]);
      FlattenCons(ReportsOf(s, es[0]), ReportHistory(t, es[1..]));
      Reassociate(s.reports, ReportsOf(s, es[0]), Flatten(ReportHistory(t, es[1..])));
      hide Inv, ReportsOf, Step, Flatten;
    }
  }

  /**
    The error callback hears exactly this over every run: for each completion that fails other than by
    the end of the stream its code, for each timeout `timed_out`, and for each shutdown of the session
    that fails its code, in the order of the events. Sends, contexts and the latch add nothing.
   */
  lemma ReportsOfRun(handler: bool, open: bool, now: int, es: seq<Event>)
    ensures var s := Start(handler, open, now);
      Run(s, es).reports == Flatten(ReportHistory(s, es))
  {
    RunReports(Start(handler, open, now), es);
  }
}
