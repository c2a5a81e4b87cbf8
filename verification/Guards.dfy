/** The deadlines of a session in terms of its callers: which calls asked for them, when, and for how long. */
module Guards {
  import opened Common
  import opened Messages
  import opened Pipeline
  import opened SessionModel
  import opened SessionInvariant

  /** A call with a time limit, and the clock when it ran. */
  datatype Guard = Guard(at: int, duration: int)

  function CallGuards(now: int, call: Call): seq<Guard>
  {
    if call.RecvWithin? || call.SendWithin? then [Guard(now, call.duration)] else []
  }

  /** The calls with a time limit among what a handler does; the clock goes on while it runs. */
  function ActionGuards(now: int, actions: seq<Action>): seq<Guard>
    decreases |actions|
  {
    if actions == [] then []
    else if actions[0].Do? then CallGuards(now, actions[0].call) + ActionGuards(now, actions[1..])
    else if actions[0].Spend? then ActionGuards(now + actions[0].ticks, actions[1..])
    else ActionGuards(now, actions[1..])
  }

  function EventGuards(s: State, e: Event): seq<Guard>
  {
    match e
    case RunPosted => if s.posted == [] then [] else CallGuards(s.now, s.posted[0])
    case ReadDone(code, _, actions) =>
      if s.reading == 0 || code == EndOfStream then [] else ActionGuards(s.now, actions)
    case _ => []
  }

  /** The calls with a time limit that each event of a run makes. */
  function GuardHistory(s: State, es: seq<Event>): (gs: seq<seq<Guard>>)
    ensures |gs| == |es|
    decreases |es|
  {
    if es == [] then [] else [EventGuards(s, es[0])] + GuardHistory(Step(s, es[0]), es[1..])
  }

  function Deadlines(guards: seq<Guard>): seq<int>
  {
    seq(|guards|, i requires 0 <= i < |guards| => Deadline(guards[i].at, guards[i].duration))
  }

  lemma DeadlinesAppend(a: seq<Guard>, b: seq<Guard>)
    ensures Deadlines(a + b) == Deadlines(a) + Deadlines(b)
  {
    hide Deadline;
  }

  // ----- What is armed -------------------------------------------------------------------------

  lemma PerformArms(s: State, call: Call)
    ensures Perform(s, call).now == s.now
    ensures Perform(s, call).timer.armings == s.timer.armings + Deadlines(CallGuards(s.now, call))
  {
    hide Deadline, Push;
    if call.RecvWithin? || call.SendWithin? {
      assert Deadlines([Guard(s.now, call.duration)]) == [Deadline(s.now, call.duration)];
    } else {
      assert Deadlines([]) == [];
    }
  }

  lemma {:induction false} ActAllArms(s: State, actions: seq<Action>)
    ensures ActAll(s, actions).timer.armings == s.timer.armings + Deadlines(ActionGuards(s.now, actions))
    decreases |actions|
  {
    hide Deadline, Perform;
    if actions == [] {
      assert Deadlines([]) == [];
    } else {
      var t := Act(s, actions[0]);
      ActAllArms(t, actions[1..]);
      if actions[0].Do? {
        PerformArms(s, actions[0].call);
        DeadlinesAppend(CallGuards(s.now, actions[0].call), ActionGuards(s.now, actions[1..]));
        hide Deadlines;
      }
    }
  }

  lemma ReleaseArms(s: State)
    ensures Release(s).timer == s.timer
  {
  }

  lemma OnReadArms(s: State, code: Code, shut: Code, actions: seq<Action>)
    ensures OnRead(s, code, shut, actions).timer.armings
         == s.timer.armings + if code == EndOfStream then [] else Deadlines(ActionGuards(s.now, actions))
  {
    var quiet := s.(timer := Cancel(s.timer));
    DoEofEffects(quiet, shut);
    ActAllArms(ReportIf(quiet, code, FromRead), actions);
    hide ActAll, ActionGuards, Deadlines, DoEof;
  }

  lemma OnWriteArms(s: State, code: Code, close: bool, shut: Code)
    ensures OnWrite(s, code, close, shut).timer.armings == s.timer.armings
  {
    DoEofEffects(s.(timer := Cancel(s.timer)), shut);
    hide Pop, DoEof;
  }

  lemma OnTimerArms(s: State, code: Code, shut: Code)
    ensures OnTimer(s, code, shut).timer.armings == s.timer.armings
  {
    var late := s.(timer := s.timer.(timeouts := s.timer.timeouts + [Timeout(s.now, |s.timer.armings|)]));
    DoEofEffects(ReportIf(late, TimedOut, FromTimer), shut);
    hide DoEof;
  }

  lemma OthersArm(s: State, e: Event)
    requires Enabled(s, e) && !e.RunPosted? && !e.ReadDone?
    ensures Step(s, e).timer.armings == s.timer.armings
  {
    hide Land, OnWrite, OnTimer, Release;
    match e
    case WriteDone(index, code, shut) =>
      var landed := s.(pipe := Land(s.pipe, index, code));
      OnWriteArms(landed, code, s.pipe.flights[index].close, shut);
      ReleaseArms(OnWrite(landed, code, s.pipe.flights[index].close, shut));
    case TimerDone(wasCancelled, code, shut) =>
      var r := s.(timer := TakeWait(s.timer, wasCancelled));
      OnTimerArms(r, code, shut);
      ReleaseArms(OnTimer(r, code, shut));
    case DropContext => ReleaseArms(s.(contexts := s.contexts - 1));
    case _ =>
  }

  lemma StepArms(s: State, e: Event)
    ensures Step(s, e).timer.armings == s.timer.armings + Deadlines(EventGuards(s, e))
  {
    assert Deadlines([]) == [];
    hide Deadlines, OnRead, Perform, Release;
    if Enabled(s, e) {
      if e.RunPosted? {
        var r := s.(posted := s.posted[1..]);
        PerformArms(r, s.posted[0]);
        ReleaseArms(Perform(r, s.posted[0]));
      } else if e.ReadDone? {
        var r := s.(reading := s.reading - 1);
        OnReadArms(r, e.code, e.shut, e.actions);
        ReleaseArms(OnRead(r, e.code, e.shut, e.actions));
      } else {
        OthersArm(s, e);
        hide Step;
      }
    }
  }

  lemma {:induction false} RunArms(s: State, es: seq<Event>)
    ensures Run(s, es).timer.armings == s.timer.armings + Deadlines(Flatten(GuardHistory(s, es)))
    decreases |es|
  {
    if es == [] {
      assert Deadlines(Flatten(GuardHistory(s, es))) == [];
    } else {
      var t := Step(s, es[0]);
      StepArms(s, es[0]);
      RunArms(t, es[1..]);
      FlattenCons(EventGuards(s, es[0]), GuardHistory(t, es[1..]));
      DeadlinesAppend(EventGuards(s, es[0]), Flatten(GuardHistory(t, es[1..])));
      Reassociate(s.timer.armings, Deadlines(EventGuards(s, es[0])), Deadlines(Flatten(GuardHistory(t, es[1..]))));
      hide Step, EventGuards, Deadlines, Flatten;
    }
  }

  // ----- In the caller's terms -----------------------------------------------------------------

  /** All calls with a time limit that a new session has run, in order. */
  function GuardsOf(handler: bool, open: bool, now: int, es: seq<Event>): seq<Guard>
  {
    Flatten(GuardHistory(Start(handler, open, now), es))
  }

  /** The clock is past the limit of the latest of the calls, or as far as it goes. */
  predicate Expired(guards: seq<Guard>, now: int)
  {
    && guards != []
    && var latest := guards[|guards| - 1];
    latest.at + latest.duration <= now || LAST_TIME <= now
  }

  /**
    Over every run the deadlines armed are those of the calls with a time limit, in order: the clock when
    the call ran, the time its handler had taken by then included, plus the duration it asked for.
   */
  lemma GuardsAreArmed(handler: bool, open: bool, now: int, es: seq<Event>)
    ensures Run(Start(handler, open, now), es).timer.armings == Deadlines(GuardsOf(handler, open, now, es))
  {
    RunArms(Start(handler, open, now), es);
    hide Run, GuardHistory, Flatten, Deadlines;
  }
}
