/** The negotiation for one participant's audio (bridge/subscription.py).

    `Next` is the whole machine: what each event does to it and the step it
    answers with. The class has the source's fields and methods, each tied to
    `Next`; the lemmas are about every run of a fresh machine. */
module Subscription {
  import opened Prelude

  datatype State = Idle | Requested | Answering | Connecting | Flowing | GivenUp | Closed

  datatype Action = Nothing | Request | Answer | Rebuild | GiveUp

  datatype Step = Step(action: Action, delay: real, sid: Option<string>, generation: int)

  datatype Machine = Machine(state: State, maxAttempts: int, requestDelay: real, rebuildDelay: real,
                             attempts: int, generation: int, sid: Option<string>)

  datatype Event =
    | Start
    | AnswerSent(generation: int)
    | Offer(sid: Option<string>)
    | Refused(about: Option<int>)
    | NoPublisher
    | MediaArrived
    | Close

  /** The states a negotiation ends in; none of them starts a repair. */
  predicate Settled(state: State) {
    state == Flowing || state == Closed || state == GivenUp
  }

  const NO_STEP := Step(Nothing, 0.0, None, 0)

  function Fresh(maxAttempts: int, requestDelay: real, rebuildDelay: real): Machine {
    Machine(Idle, maxAttempts, requestDelay, rebuildDelay, 0, 0, None)
  }

  /** One more try out of the shared budget, or the end of it. */
  function Retry(m: Machine, action: Action, delay: real): (Machine, Step) {
    if m.attempts >= m.maxAttempts then
      (m.(state := GivenUp), Step(GiveUp, 0.0, None, 0))
    else
      (m.(attempts := m.attempts + 1, state := Requested, generation := m.generation + 1),
       Step(action, delay, None, m.generation + 1))
  }

  function Next(m: Machine, e: Event): (Machine, Step) {
    match e
    case Start =>
      if m.state != Idle then (m, NO_STEP)
      else (m.(state := Requested, attempts := 1), Step(Request, 0.0, None, 0))
    case AnswerSent(generation) =>
      if m.state != Answering || generation != m.generation then (m, NO_STEP)
      else (m.(state := Connecting), NO_STEP)
    case Offer(sid) =>
      if Settled(m.state) then (m, NO_STEP)
      else (m.(generation := m.generation + 1, sid := sid, state := Answering),
            Step(Answer, 0.0, sid, m.generation + 1))
    case Refused(about) =>
      if Settled(m.state) then (m, NO_STEP)
      else if about.Some? && about.value != m.generation then (m, NO_STEP)
      else Retry(m, Rebuild, m.rebuildDelay)
    case NoPublisher =>
      if Settled(m.state) || m.state == Idle then (m, NO_STEP)
      else Retry(m, Request, m.requestDelay)
    case MediaArrived =>
      if m.state == Closed then (m, NO_STEP) else (m.(state := Flowing), NO_STEP)
    case Close => (m.(state := Closed), NO_STEP)
  }

  predicate StillCurrent(m: Machine, step: Step) {
    !Settled(m.state) && step.generation == m.generation
  }

  class Subscription {
    var state: State
    const maxAttempts: int
    const requestDelay: real
    const rebuildDelay: real
    var attempts: int
    var generation: int
    var sid: Option<string>

    function Snapshot(): Machine
      reads this
    {
      Machine(state, maxAttempts, requestDelay, rebuildDelay, attempts, generation, sid)
    }

    constructor (maxAttempts: int, requestDelay: real, rebuildDelay: real)
      ensures Snapshot() == Fresh(maxAttempts, requestDelay, rebuildDelay)
    {
      this.state := Idle;
      this.maxAttempts, this.requestDelay, this.rebuildDelay := maxAttempts, requestDelay, rebuildDelay;
      this.attempts, this.generation, this.sid := 0, 0, None;
    }

    method Begin() returns (step: Step)
      modifies this
      ensures (Snapshot(), step) == Next(old(Snapshot()), Start)
    {
      if state != Idle {
        return NO_STEP;
      }
      state := Requested;
      attempts := 1;
      return Step(Request, 0.0, None, 0);
    }

    method AnswerWasSent(generation: int) returns (step: Step)
      modifies this
      ensures (Snapshot(), step) == Next(old(Snapshot()), AnswerSent(generation))
    {
      if state != Answering || generation != this.generation {
        return NO_STEP;
      }
      state := Connecting;
      return NO_STEP;
    }

    method OfferArrived(sid: Option<string>) returns (step: Step)
      modifies this
      ensures (Snapshot(), step) == Next(old(Snapshot()), Offer(sid))
    {
      if Settled(state) {
        return NO_STEP;
      }
      generation := generation + 1;
      this.sid := sid;
      state := Answering;
      return Step(Answer, 0.0, sid, generation);
    }

    method AnswerRefused(about: Option<int>) returns (step: Step)
      modifies this
      ensures (Snapshot(), step) == Next(old(Snapshot()), Refused(about))
    {
      if Settled(state) {
        return NO_STEP;
      }
      if about.Some? && about.value != generation {
        return NO_STEP;
      }
      step := TryAgain(Rebuild, rebuildDelay);
    }

    method PublisherMissing() returns (step: Step)
      modifies this
      ensures (Snapshot(), step) == Next(old(Snapshot()), NoPublisher)
    {
      if Settled(state) || state == Idle {
        return NO_STEP;
      }
      step := TryAgain(Request, requestDelay);
    }

    method FrameArrived() returns (step: Step)
      modifies this
      ensures (Snapshot(), step) == Next(old(Snapshot()), MediaArrived)
    {
      if state == Closed {
        return NO_STEP;
      }
      state := Flowing;
      return NO_STEP;
    }

    method End() returns (step: Step)
      modifies this
      ensures (Snapshot(), step) == Next(old(Snapshot()), Close)
    {
      state := Closed;
      return NO_STEP;
    }

    method TryAgain(action: Action, delay: real) returns (step: Step)
      modifies this
      ensures (Snapshot(), step) == Retry(old(Snapshot()), action, delay)
    {
      if attempts >= maxAttempts {
        state := GivenUp;
        return Step(GiveUp, 0.0, None, 0);
      }
      attempts := attempts + 1;
      state := Requested;
      generation := generation + 1;
      return Step(action, delay, None, generation);
    }
  }

  // ---------------------------------------------------------------- runs

  /** A machine together with every non-empty step it has issued so far. */
  datatype Trace = Trace(machine: Machine, steps: seq<Step>)

  function Advance(t: Trace, e: Event): Trace {
    var (after, step) := Next(t.machine, e);
    Trace(after, if step.action == Nothing then t.steps else t.steps + [step])
  }

  function Run(m: Machine, events: seq<Event>): Trace {
    if events == [] then Trace(m, []) else Advance(Run(m, Front(events)), Last(events))
  }

  predicate IsTry(step: Step) {
    step.action == Request || step.action == Rebuild
  }

  /** How many of the steps ask (again) for an offer. */
  function Tries(steps: seq<Step>): nat {
    if steps == [] then 0 else Tries(Front(steps)) + if IsTry(Last(steps)) then 1 else 0
  }

  function GiveUps(steps: seq<Step>): nat {
    if steps == [] then 0 else GiveUps(Front(steps)) + if Last(steps).action == GiveUp then 1 else 0
  }

  lemma CountsSnoc(steps: seq<Step>, step: Step)
    ensures Tries(steps + [step]) == Tries(steps) + if IsTry(step) then 1 else 0
    ensures GiveUps(steps + [step]) == GiveUps(steps) + if step.action == GiveUp then 1 else 0
  {
    assert Front(steps + [step]) == steps;
  }

  /** The budget: each request and rebuild is one attempt, there are no more
      attempts than allowed, and giving up happens once and for all. */
  ghost predicate WithinBudget(t: Trace) {
    var m := t.machine;
    && m.attempts == Tries(t.steps)
    && m.attempts <= Max(1, m.maxAttempts)
    && GiveUps(t.steps) <= 1
    && (GiveUps(t.steps) == 1 ==> Settled(m.state))
    && (m.state == GivenUp ==> m.attempts >= m.maxAttempts)
    && (m.state == Idle ==> m.attempts == m.generation == 0 && t.steps == [])
  }

  /** One generation, one step: those that ask for something are numbered
      upwards, none beyond the machine's own generation. */
  ghost predicate Numbered(t: Trace) {
    && 0 <= t.machine.generation
    && (forall i :: 0 <= i < |t.steps| ==> t.steps[i].action != Nothing)
    && (forall i :: 0 <= i < |t.steps| && t.steps[i].action != GiveUp
          ==> 0 <= t.steps[i].generation <= t.machine.generation)
    && (forall i, j :: 0 <= i < j < |t.steps| && t.steps[i].action != GiveUp && t.steps[j].action != GiveUp
          ==> t.steps[i].generation < t.steps[j].generation)
  }

  /** Every repair waits: only the opening request goes out at once. */
  ghost predicate Delayed(t: Trace) {
    forall i :: 0 <= i < |t.steps| ==>
      var step := t.steps[i];
      && (step.action == Rebuild ==> step.delay == t.machine.rebuildDelay)
      && (step.action == Request ==> step.delay == t.machine.requestDelay || (step.generation == 0 && i == 0))
  }

  ghost predicate Sound(t: Trace) {
    WithinBudget(t) && Numbered(t) && Delayed(t)
  }

  lemma BudgetStep(t: Trace, e: Event)
    requires WithinBudget(t)
    ensures WithinBudget(Advance(t, e))
    ensures Advance(t, e).machine.maxAttempts == t.machine.maxAttempts
    ensures Advance(t, e).machine.requestDelay == t.machine.requestDelay
    ensures Advance(t, e).machine.rebuildDelay == t.machine.rebuildDelay
  {
    CountsSnoc(t.steps, Next(t.machine, e).1);
  }

  lemma NumberedStep(t: Trace, e: Event)
    requires Numbered(t) && (t.machine.state == Idle ==> t.steps == [])
    ensures Numbered(Advance(t, e))
  {
    var (after, step) := Next(t.machine, e);
    assert step.action != Nothing && step.action != GiveUp && t.machine.state != Idle
      ==> t.machine.generation < step.generation == after.generation;
  }

  lemma DelayedStep(t: Trace, e: Event)
    requires Delayed(t) && (t.machine.state == Idle ==> t.steps == [])
    ensures Delayed(Advance(t, e))
  {
  }

  lemma {:induction false} RunSound(start: Machine, events: seq<Event>)
    requires start == Fresh(start.maxAttempts, start.requestDelay, start.rebuildDelay)
    ensures Sound(Run(start, events)) && Run(start, events).machine.maxAttempts == start.maxAttempts
    ensures Run(start, events).machine.requestDelay == start.requestDelay
    ensures Run(start, events).machine.rebuildDelay == start.rebuildDelay
  {
    if events != [] {
      RunSound(start, Front(events));
      var before := Run(start, Front(events));
      BudgetStep(before, Last(events));
      NumberedStep(before, Last(events));
      DelayedStep(before, Last(events));
    }
  }

  /** The budget over a whole run: requests and rebuilds together are the
      attempts, they stay within the budget, and giving up is said once. (The
      opening request is made even with a budget of none.) */
  lemma BudgetKept(maxAttempts: int, requestDelay: real, rebuildDelay: real, events: seq<Event>)
    ensures var t := Run(Fresh(maxAttempts, requestDelay, rebuildDelay), events);
            && t.machine.attempts == Tries(t.steps) <= Max(1, maxAttempts)
            && GiveUps(t.steps) <= 1
  {
    RunSound(Fresh(maxAttempts, requestDelay, rebuildDelay), events);
  }

  /** Nothing retries in a tight loop: every step that asks again, in any run,
      carries the delay of its kind; only an opening request goes out at once. */
  lemma RepairsWait(maxAttempts: int, requestDelay: real, rebuildDelay: real, events: seq<Event>, i: nat)
    requires i < |Run(Fresh(maxAttempts, requestDelay, rebuildDelay), events).steps|
    ensures var step := Run(Fresh(maxAttempts, requestDelay, rebuildDelay), events).steps[i];
            && (step.action == Rebuild ==> step.delay == rebuildDelay)
            && (step.action == Request ==> step.delay == requestDelay || (step.generation == 0 && i == 0))
  {
    RunSound(Fresh(maxAttempts, requestDelay, rebuildDelay), events);
  }

  // ------------------------------------------------ which event asks for what

  function Count(steps: seq<Step>, action: Action): nat {
    if steps == [] then 0 else Count(Front(steps), action) + if Last(steps).action == action then 1 else 0
  }

  lemma CountSnoc(steps: seq<Step>, step: Step, action: Action)
    ensures Count(steps + [step], action) == Count(steps, action) + if step.action == action then 1 else 0
  {
    assert Front(steps + [step]) == steps;
  }

  /** A refusal that is heeded: something may still come of the negotiation, and it is about
      the newest generation or does not say which. */
  predicate RefusalCounts(m: Machine, e: Event) {
    && e.Refused? && m.state in {Idle, Requested, Answering, Connecting}
    && (e.about.None? || e.about.value == m.generation)
  }

  /** A missing publisher that is heeded: something is under way. */
  predicate MissingCounts(m: Machine, e: Event) {
    e.NoPublisher? && m.state in {Requested, Answering, Connecting}
  }

  /** Whether an event is answered with this action. A refusal takes the connection down and
      builds another, a missing publisher is asked for again on the one there is, an offer is
      answered - and the first two give up once the budget is spent. */
  predicate Asks(m: Machine, e: Event, action: Action) {
    match action
    case Nothing => false
    case Request => (e.Start? && m.state == Idle) || (MissingCounts(m, e) && m.attempts < m.maxAttempts)
    case Rebuild => RefusalCounts(m, e) && m.attempts < m.maxAttempts
    case Answer => e.Offer? && m.state in {Idle, Requested, Answering, Connecting}
    case GiveUp => (RefusalCounts(m, e) || MissingCounts(m, e)) && m.attempts >= m.maxAttempts
  }

  /** How often the events of a run ask for an action. */
  function Asked(m: Machine, events: seq<Event>, action: Action): nat {
    if events == [] then 0
    else Asked(m, Front(events), action) + if Asks(Run(m, Front(events)).machine, Last(events), action) then 1 else 0
  }

  lemma NextAsks(m: Machine, e: Event)
    ensures forall action :: action != Nothing ==> (Next(m, e).1.action == action <==> Asks(m, e, action))
  {
  }

  /** Over every run, from any machine: there are exactly as many rebuilds as refusals that
      were heeded, as many requests as openings and missing publishers that were, as many
      answers as offers taken up, and as many givings up as of either beyond the budget. */
  lemma {:induction false} StepsAreAskedFor(m: Machine, events: seq<Event>, action: Action)
    requires action != Nothing
    ensures Count(Run(m, events).steps, action) == Asked(m, events, action)
  {
    if events != [] {
      var before := Run(m, Front(events));
      StepsAreAskedFor(m, Front(events), action);
      NextAsks(before.machine, Last(events));
      CountSnoc(before.steps, Next(before.machine, Last(events)).1, action);
    }
  }

  /** An event that ends the waiting for audio, or begins another round of it. */
  predicate EndsWaiting(m: Machine, e: Event) {
    e.Offer? || RefusalCounts(m, e) || MissingCounts(m, e) || e.MediaArrived? || e.Close?
  }

  /** The answer to the newest offer is on the wire, and nothing has come of it yet. */
  predicate AwaitsAudio(m: Machine, events: seq<Event>) {
    events != [] &&
    var before, e := Run(m, Front(events)).machine, Last(events);
    || (before.state == Answering && e == AnswerSent(before.generation))
    || (AwaitsAudio(m, Front(events)) && !EndsWaiting(before, e))
  }

  lemma NextAwaits(m: Machine, e: Event)
    ensures Next(m, e).0.state == Connecting
            <==> (m.state == Answering && e == AnswerSent(m.generation))
                 || (m.state == Connecting && !EndsWaiting(m, e))
  {
  }

  /** Over every run: a machine waits for audio exactly from when the answer to its newest
      offer has been sent - an answer to any other does not count - until something comes. */
  lemma {:induction false} ConnectingIff(m: Machine, events: seq<Event>)
    requires m.state != Connecting
    ensures Run(m, events).machine.state == Connecting <==> AwaitsAudio(m, events)
  {
    if events != [] {
      ConnectingIff(m, Front(events));
      NextAwaits(Run(m, Front(events)).machine, Last(events));
    }
  }

  /** What a step carries: an answer the session of its offer, a repair a generation of its
      own, which is the machine's from then on. */
  lemma StepsName(m: Machine, e: Event)
    ensures var (after, step) := Next(m, e);
      && (step.action == Answer ==> e.Offer? && step.sid == e.sid == after.sid && after.state == Answering)
      && (step.action == Answer || step.action == Rebuild || (step.action == Request && e.NoPublisher?) ==>
            step.generation == after.generation == m.generation + 1)
      && (step.action == Rebuild || step.action == Request ==> after.state == Requested)
      && (step.action == GiveUp ==> step == Step(GiveUp, 0.0, None, 0) && after == m.(state := GivenUp))
      && (step.action == Nothing ==> after.generation == m.generation)
  {
  }

  /** One negotiation at a time: of all the steps a machine ever issued, at
      most one is still the one to take - and never the giving up. */
  lemma AtMostOneStepCurrent(maxAttempts: int, requestDelay: real, rebuildDelay: real, events: seq<Event>,
                             i: nat, j: nat)
    requires var t := Run(Fresh(maxAttempts, requestDelay, rebuildDelay), events);
             && i < |t.steps| && j < |t.steps|
             && StillCurrent(t.machine, t.steps[i]) && StillCurrent(t.machine, t.steps[j])
    ensures i == j
    ensures Run(Fresh(maxAttempts, requestDelay, rebuildDelay), events).steps[i].action != GiveUp
  {
    RunSound(Fresh(maxAttempts, requestDelay, rebuildDelay), events);
    var t := Run(Fresh(maxAttempts, requestDelay, rebuildDelay), events);
    if t.steps[i].action == GiveUp {
      GiveUpCounted(t.steps, i);
    }
    if t.steps[j].action == GiveUp {
      GiveUpCounted(t.steps, j);
    }
  }

  lemma {:induction false} GiveUpCounted(steps: seq<Step>, i: nat)
    requires i < |steps| && steps[i].action == GiveUp
    ensures GiveUps(steps) >= 1
  {
    if i < |steps| - 1 {
      GiveUpCounted(Front(steps), i);
    }
  }

  /** Generations never go back, whatever happens next. */
  lemma {:induction false} GenerationsAdvance(m: Machine, events: seq<Event>)
    ensures m.generation <= Run(m, events).machine.generation
  {
    if events != [] {
      GenerationsAdvance(m, Front(events));
    }
  }

  /** From the first frame on the machine is deaf to everything but the close, over
      any run of events. */
  lemma {:induction false} FlowingAbsorbs(m: Machine, events: seq<Event>)
    requires m.state == Flowing && Close !in events
    ensures Run(m, events) == Trace(m, [])
  {
    if events != [] {
      assert Last(events) in events;
      FlowingAbsorbs(m, Front(events));
    }
  }

  /** No event moves a closed machine or gets a step out of it. */
  lemma {:induction false} ClosedIsFinal(m: Machine, events: seq<Event>)
    requires m.state == Closed
    ensures Run(m, events) == Trace(m, [])
  {
    if events != [] {
      ClosedIsFinal(m, Front(events));
    }
  }

  /** Having given up is left by a frame or by the end of the call, and by
      nothing else; a late frame still makes the call heard. */
  lemma {:induction false} GivenUpUntilFrame(m: Machine, events: seq<Event>)
    requires m.state == GivenUp
    ensures Run(m, events).machine.state == GivenUp <==> MediaArrived !in events && Close !in events
    ensures Run(m, events).steps == []
    ensures Run(m, events).machine.state in {GivenUp, Flowing, Closed}
  {
    if events != [] {
      GivenUpUntilFrame(m, Front(events));
      assert events == Front(events) + [Last(events)];
    }
  }
}
