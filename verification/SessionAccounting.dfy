/** Calls, reads, waits and contexts of a session, counted over whole runs: nothing is lost and nothing is made up. */
module SessionAccounting {
  import opened Common
  import opened Messages
  import opened Pipeline
  import opened SessionModel
  import opened SessionInvariant
  import opened Guards

  // ----- Posted calls --------------------------------------------------------------------------

  /** The call that user code posts in an event; it needs a live context. */
  function PostedCall(s: State, e: Event): seq<Call>
  {
    if e.Post? && s.contexts > 0 then [e.call] else []
  }

  /** The call that the strand runs in an event. */
  function RanCall(s: State, e: Event): seq<Call>
  {
    if e.RunPosted? && s.posted != [] then [s.posted[0]] else []
  }

  /** The calls posted in a run, in order. */
  function PostedCalls(s: State, es: seq<Event>): seq<Call>
    decreases |es|
  {
    if es == [] then [] else PostedCall(s, es[0]) + PostedCalls(Step(s, es[0]), es[1..])
  }

  /** The posted calls that the strand runs in a run, in order. */
  function RanCalls(s: State, es: seq<Event>): seq<Call>
    decreases |es|
  {
    if es == [] then [] else RanCall(s, es[0]) + RanCalls(Step(s, es[0]), es[1..])
  }

  // ----- Reads, contexts and waits -------------------------------------------------------------

  function One(b: bool): nat
  {
    if b then 1 else 0
  }

  function CallReads(call: Call): nat
  {
    One(call.Recv? || call.RecvWithin?)
  }

  /** The reads that the calls of a handler start. */
  function ActionReads(actions: seq<Action>): nat
  {
    if actions == [] then 0
    else (if actions[0].Do? then CallReads(actions[0].call) else 0) + ActionReads(actions[1..])
  }

  /** The copies of its context that a handler keeps. */
  function ActionKeeps(actions: seq<Action>): nat
  {
    if actions == [] then 0 else One(actions[0].Keep?) + ActionKeeps(actions[1..])
  }

  /** Handlers run for a read that completes, other than by the end of the stream. */
  predicate RunsHandlers(s: State, e: Event)
  {
    e.ReadDone? && s.reading > 0 && e.code != EndOfStream
  }

  function ReadCalls(s: State, e: Event): nat
  {
    (if e.RunPosted? && s.posted != [] then CallReads(s.posted[0]) else 0)
    + if RunsHandlers(s, e) then ActionReads(e.actions) else 0
  }

  function ReadEnds(s: State, e: Event): nat
  {
    One(e.ReadDone? && s.reading > 0)
  }

  function ContextsMade(s: State, e: Event): nat
  {
    One(e.CopyContext? && s.contexts > 0) + if RunsHandlers(s, e) then ActionKeeps(e.actions) else 0
  }

  function ContextsDropped(s: State, e: Event): nat
  {
    One(e.DropContext? && s.contexts > 0)
  }

  function GuardedCalls(s: State, e: Event): nat
  {
    |EventGuards(s, e)|
  }

  /** The handler of a wait runs; one whose wait is still armed does not get `operation_aborted`. */
  function WaitsHandled(s: State, e: Event): nat
  {
    One(e.TimerDone? && if e.wasCancelled then s.timer.cancelled > 0 else s.timer.waiting > 0 && e.code != Aborted)
  }

  /** What all events of a run add up to. */
  function Total(count: (State, Event) -> nat, s: State, es: seq<Event>): nat
    decreases |es|
  {
    if es == [] then 0 else count(s, es[0]) + Total(count, Step(s, es[0]), es[1..])
  }

  // ----- The handlers --------------------------------------------------------------------------

  function Waits(t: TimerState): nat
  {
    t.waiting + t.cancelled
  }

  /** A handler leaves the posted calls alone and starts or takes so many reads, waits and contexts. */
  ghost predicate Counted(s: State, t: State, begun: nat, armed: nat, kept: nat)
  {
    && t.posted == s.posted && t.reading == s.reading + begun
    && Waits(t.timer) == Waits(s.timer) + armed && t.contexts == s.contexts + kept
  }

  lemma PerformCounts(s: State, call: Call)
    ensures Counted(s, Perform(s, call), CallReads(call), |CallGuards(s.now, call)|, 0)
  {
    hide Push;
  }

  lemma ActCounts(s: State, action: Action)
    ensures Counted(s, Act(s, action), if action.Do? then CallReads(action.call) else 0,
                    if action.Do? then |CallGuards(s.now, action.call)| else 0, One(action.Keep?))
  {
    if action.Do? {
      PerformCounts(s, action.call);
    }
    hide Perform;
  }

  lemma {:induction false} ActAllCounts(s: State, actions: seq<Action>)
    ensures Counted(s, ActAll(s, actions), ActionReads(actions), |ActionGuards(s.now, actions)|, ActionKeeps(actions))
    decreases |actions|
  {
    if actions != [] {
      ActCounts(s, actions[0]);
      ActAllCounts(Act(s, actions[0]), actions[1..]);
      PerformClock(s, actions[0]);
      hide Act;
    }
  }

  lemma PerformClock(s: State, action: Action)
    ensures Act(s, action).now == s.now + if action.Spend? then action.ticks else 0
  {
    hide Push;
  }

  lemma OnReadCounted(s: State, code: Code, shut: Code, actions: seq<Action>)
    ensures var ran := if code == EndOfStream then [] else actions;
      Counted(s, OnRead(s, code, shut, actions), ActionReads(ran), |ActionGuards(s.now, ran)|, ActionKeeps(ran))
  {
    var quiet := s.(timer := Cancel(s.timer));
    DoEofEffects(quiet, shut);
    ActAllCounts(ReportIf(quiet, code, FromRead), actions);
    hide ActAll, DoEof;
  }

  lemma OnWriteCounted(s: State, code: Code, close: bool, shut: Code)
    ensures Counted(s, OnWrite(s, code, close, shut), 0, 0, 0)
  {
    DoEofEffects(s.(timer := Cancel(s.timer)), shut);
    hide Pop, DoEof;
  }

  lemma OnTimerCounted(s: State, code: Code, shut: Code)
    ensures Counted(s, OnTimer(s, code, shut), 0, 0, 0)
  {
    var late := s.(timer := s.timer.(timeouts := s.timer.timeouts + [Timeout(s.now, |s.timer.armings|)]));
    DoEofEffects(ReportIf(late, TimedOut, FromTimer), shut);
    hide DoEof;
  }

  lemma ReleaseCounted(s: State)
    ensures Counted(s, Release(s), 0, 0, 0)
  {
  }

  // ----- Every event ---------------------------------------------------------------------------

  /** What is outstanding after an event is what was outstanding, and what came, without what went. */
  ghost predicate Balanced(s: State, e: Event, t: State)
  {
    && s.posted + PostedCall(s, e) == RanCall(s, e) + t.posted
    && t.reading + ReadEnds(s, e) == s.reading + ReadCalls(s, e)
    && t.contexts + ContextsDropped(s, e) == s.contexts + ContextsMade(s, e)
    && Waits(t.timer) + WaitsHandled(s, e) == Waits(s.timer) + GuardedCalls(s, e)
  }

  lemma CompletionBalances(s: State, e: Event)
    requires Enabled(s, e) && (e.ReadDone? || e.WriteDone? || e.TimerDone?)
    ensures Balanced(s, e, Step(s, e))
  {
    hide OnRead, OnWrite, OnTimer, Release, Land;
    match e
    case ReadDone(code, shut, actions) =>
      var r := s.(reading := s.reading - 1);
      OnReadCounted(r, code, shut, actions);
      ReleaseCounted(OnRead(r, code, shut, actions));
    case WriteDone(index, code, shut) =>
      var landed := s.(pipe := Land(s.pipe, index, code));
      OnWriteCounted(landed, code, s.pipe.flights[index].close, shut);
      ReleaseCounted(OnWrite(landed, code, s.pipe.flights[index].close, shut));
    case TimerDone(wasCancelled, code, shut) =>
      var r := s.(timer := TakeWait(s.timer, wasCancelled));
      OnTimerCounted(r, code, shut);
      ReleaseCounted(OnTimer(r, code, shut));
  }

  lemma StepBalances(s: State, e: Event)
    ensures Balanced(s, e, Step(s, e))
  {
    if Enabled(s, e) && (e.ReadDone? || e.WriteDone? || e.TimerDone?) {
      CompletionBalances(s, e);
      hide *;
    } else {
      hide Perform, Release;
      if e.RunPosted? && Enabled(s, e) {
        var r := s.(posted := s.posted[1..]);
        PerformCounts(r, s.posted[0]);
        ReleaseCounted(Perform(r, s.posted[0]));
      } else if e.DropContext? && Enabled(s, e) {
        ReleaseCounted(s.(contexts := s.contexts - 1));
      }
    }
  }

  // ----- Whole runs ----------------------------------------------------------------------------

  /**
    Calls posted from other threads run in the order in which they were posted: those that have run
    followed by those that wait are those that were waiting followed by those posted since.
   */
  lemma {:induction false} PostedInOrder(s: State, es: seq<Event>)
    ensures s.posted + PostedCalls(s, es) == RanCalls(s, es) + Run(s, es).posted
    decreases |es|
  {
    if es != [] {
      var t := Step(s, es[0]);
      StepBalances(s, es[0]);
      PostedInOrder(t, es[1..]);
      hide Step, PostedCall, RanCall;
      Reassociate(s.posted, PostedCall(s, es[0]), PostedCalls(t, es[1..]));
      Reassociate(RanCall(s, es[0]), t.posted, PostedCalls(t, es[1..]));
      Reassociate(RanCall(s, es[0]), RanCalls(t, es[1..]), Run(t, es[1..]).posted);
    }
  }

  lemma {:induction false} RunBalances(s: State, es: seq<Event>)
    ensures var t := Run(s, es);
      && t.reading + Total(ReadEnds, s, es) == s.reading + Total(ReadCalls, s, es)
      && t.contexts + Total(ContextsDropped, s, es) == s.contexts + Total(ContextsMade, s, es)
      && Waits(t.timer) + Total(WaitsHandled, s, es) == Waits(s.timer) + Total(GuardedCalls, s, es)
    decreases |es|
  {
    if es != [] {
      StepBalances(s, es[0]);
      hide Step, ReadEnds, ReadCalls, ContextsDropped, ContextsMade, WaitsHandled, GuardedCalls, Waits;
      RunBalances(Step(s, es[0]), es[1..]);
    }
  }

  /** Over every run, each call of `recv`, from handlers too, starts a read that has completed or is outstanding. */
  lemma ReadsAccounted(handler: bool, open: bool, now: int, es: seq<Event>)
    ensures var s := Start(handler, open, now);
      Total(ReadCalls, s, es) == Total(ReadEnds, s, es) + Run(s, es).reading
  {
    RunBalances(Start(handler, open, now), es);
    hide Run, Total;
  }

  /** Over every run, the live contexts are the first one and those made since, without those dropped. */
  lemma ContextsAccounted(handler: bool, open: bool, now: int, es: seq<Event>)
    ensures var s := Start(handler, open, now);
      1 + Total(ContextsMade, s, es) == Total(ContextsDropped, s, es) + Run(s, es).contexts
  {
    RunBalances(Start(handler, open, now), es);
    hide Run, Total;
  }

  lemma {:induction false} GuardsCounted(s: State, es: seq<Event>)
    ensures |Flatten(GuardHistory(s, es))| == Total(GuardedCalls, s, es)
    decreases |es|
  {
    if es == [] {
      assert Flatten(GuardHistory(s, es)) == [];
    } else {
      hide Step, EventGuards;
      GuardsCounted(Step(s, es[0]), es[1..]);
      FlattenCons(EventGuards(s, es[0]), GuardHistory(Step(s, es[0]), es[1..]));
    }
  }

  /**
    Over every run, each call with a time limit starts a wait whose handler has run or will run; at most
    one of the waits is still armed, the others have been cancelled.
   */
  lemma WaitsAccounted(handler: bool, open: bool, now: int, es: seq<Event>)
    ensures var s := Start(handler, open, now);
      && |GuardsOf(handler, open, now, es)| == Total(WaitsHandled, s, es) + Waits(Run(s, es).timer)
      && Run(s, es).timer.waiting <= 1
  {
    ReachableInv(handler, open, now, es);
    RunBalances(Start(handler, open, now), es);
    GuardsCounted(Start(handler, open, now), es);
    hide Run, Total, GuardHistory, Flatten;
  }
}
