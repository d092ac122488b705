/** Following one negotiation to audio (bridge/human_audio.py), together with the
    guarded swaps of the connection it negotiates (bridge/call_media.py).

    The source runs these as asyncio tasks. Here each stretch of code between two
    `await`s is one atomic transition; what waits at an `await` is kept in the
    state, and any of it may continue, or be lost to an exception, at any time. */
module HumanAudio {
  import opened Prelude
  import opened Subscription

  /** A connection to one participant: whether a frame ever came over it, and
      whether an offer was answered with it. */
  datatype Source = Source(receiving: bool, answered: bool)

  /** A subscribe answer that went out: the offer it names, and its generation. */
  datatype Reply = Reply(sid: Option<string>, generation: int)

  /** What moved the negotiation on: an offer that was accepted, or a retry. */
  datatype Turn = Accepted(sid: Option<string>) | Retried

  /** Where `answer_offer` waits: for the replaced connection to close, for the
      descriptions to be set, or for the answer to be on the wire. */
  datatype Phase = ClosingReplaced(source: nat) | Describing | Sending

  datatype AnswerTask = AnswerTask(step: Step, phase: Phase)

  datatype System = System(
    machine: Machine,
    listed: bool,                     // the call still keeps this machine for the participant
    current: Option<nat>,             // the connection in use, an index into sources
    sources: seq<Source>,             // every connection there ever was, oldest first
    sleeping: multiset<Step>,         // pursue, waiting out a step's delay
    preparing: multiset<Step>,        // pursue, waiting for a rebuild's old connection to close
    requesting: nat,                  // pursue, waiting for a request to be on the wire
    watching: multiset<int>,          // watch_for_offer, by the generation it watches
    answers: map<int, AnswerTask>,    // answer_offer, by the generation it answers
    requests: nat,                    // how many requestoffer messages were sent
    replies: seq<Reply>,              // the subscribe answers sent, oldest first
    announced: nat,                   // how often giving up was said
    history: seq<Turn>
  )

  datatype TaskName =
    | Sleep(step: Step)
    | Prepare(step: Step)
    | Send
    | Watch(generation: int)
    | AnswerOf(generation: int)

  datatype Happening =
    | Begins
    | OfferComes(sid: Option<string>)
    | RefusalComes
    | FrameComes(source: nat)
    | Continues(task: TaskName)
    | Fails(task: TaskName)
    | StopsListening
    | CallCloses

  function Opened(m: Machine): System {
    System(m, true, Some(0), [Source(false, false)], multiset{}, multiset{}, 0, multiset{}, map[], 0, [], 0, [])
  }

  /** The machine is told something; an accepted offer and a retry are turns. */
  function Told(s: System, e: Event): (System, Step) {
    var (after, step) := Next(s.machine, e);
    var turn := if step.action == Answer then [Accepted(step.sid)]
                else if after.generation != s.machine.generation then [Retried] else [];
    (s.(machine := after, history := s.history + turn), step)
  }

  function OpenSubscriber(s: System): System {
    s.(sources := s.sources + [Source(false, false)], current := Some(|s.sources|))
  }

  /** `pursue` after its delay, up to its next wait. */
  function CarryOut(s: System, step: Step): System {
    if !s.listed || s.current.None? || !StillCurrent(s.machine, step) then s
    else if step.action == GiveUp then s.(announced := s.announced + 1)
    else if step.action == Rebuild then
      if s.current.value < |s.sources| && s.sources[s.current.value].receiving then s
      else OpenSubscriber(s).(preparing := s.preparing + multiset{step})
    else if step.action == Request then
      s.(requests := s.requests + 1, requesting := s.requesting + 1)
    else s
  }

  function Pursue(s: System, step: Step): System {
    if step.action == Nothing then s
    else if step.delay != 0.0 then s.(sleeping := s.sleeping + multiset{step})
    else CarryOut(s, step)
  }

  /** `answer_offer` up to its first wait: which connection answers, if any. */
  function TakeOffer(s: System, sid: Option<string>): System {
    var (told, step) := Told(s, Offer(sid));
    if step.action != Answer || s.current.None? || s.current.value >= |s.sources| then told
    else
      var source := s.sources[s.current.value];
      if source.receiving then told
      else if source.answered then
        OpenSubscriber(told).(answers := s.answers[step.generation := AnswerTask(step, ClosingReplaced(|s.sources|))])
      else
        told.(sources := s.sources[s.current.value := source.(answered := true)],
              answers := s.answers[step.generation := AnswerTask(step, Describing)])
  }

  function ContinueAnswer(s: System, g: int): System
    requires g in s.answers
  {
    var task := s.answers[g];
    match task.phase
    case ClosingReplaced(source) =>
      s.(sources := if source < |s.sources| then s.sources[source := s.sources[source].(answered := true)]
                    else s.sources,
         answers := s.answers[g := task.(phase := Describing)])
    case Describing =>
      if s.machine.generation != task.step.generation then s.(answers := s.answers - {g})
      else s.(replies := s.replies + [Reply(task.step.sid, task.step.generation)],
              answers := s.answers[g := task.(phase := Sending)])
    case Sending => Told(s, AnswerSent(task.step.generation)).0.(answers := s.answers - {g})
  }

  function Continue(s: System, task: TaskName): System {
    match task
    case Sleep(step) =>
      if step !in s.sleeping then s
      else CarryOut(s.(sleeping := s.sleeping - multiset{step}), step)
    case Prepare(step) =>
      if step !in s.preparing then s
      else s.(preparing := s.preparing - multiset{step},
              requests := s.requests + 1, requesting := s.requesting + 1)
    case Send =>
      if s.requesting == 0 then s
      else s.(requesting := s.requesting - 1, watching := s.watching + multiset{s.machine.generation})
    case Watch(g) =>
      if g !in s.watching then s
      else
        var woken := s.(watching := s.watching - multiset{g});
        if !s.listed || s.machine.state == Flowing || s.machine.generation != g || s.current.None? then woken
        else
          var (told, step) := Told(woken, NoPublisher);
          Pursue(told, step)
    case AnswerOf(g) => if g !in s.answers then s else ContinueAnswer(s, g)
  }

  /** An exception or a cancellation at the `await` a task is waiting at. */
  function Lose(s: System, task: TaskName): System {
    match task
    case Sleep(step) => s.(sleeping := s.sleeping - multiset{step})
    case Prepare(step) => s.(preparing := s.preparing - multiset{step})
    case Send => if s.requesting == 0 then s else s.(requesting := s.requesting - 1)
    case Watch(g) => s.(watching := s.watching - multiset{g})
    case AnswerOf(g) => s.(answers := s.answers - {g})
  }

  function After(s: System, h: Happening): System {
    match h
    case Begins =>
      var (told, step) := Told(s, Start);
      Pursue(told, step)
    case OfferComes(sid) => if s.listed then TakeOffer(s, sid) else s
    case RefusalComes =>
      if !s.listed then s
      else
        var (told, step) := Told(s, Refused(None));
        Pursue(told, step)
    case FrameComes(i) =>
      if i >= |s.sources| || s.sources[i].receiving then s
      else
        var heard := s.(sources := s.sources[i := s.sources[i].(receiving := true)]);
        if s.listed then Told(heard, MediaArrived).0 else heard
    case Continues(task) => Continue(s, task)
    case Fails(task) => Lose(s, task)
    case StopsListening => s.(listed := false, current := None)
    case CallCloses => Told(s, Close).0
  }

  function Run(s: System, hs: seq<Happening>): System {
    if hs == [] then s else After(Run(s, Front(hs)), Last(hs))
  }

  // ------------------------------------------------------------ invariants

  /** The machine's own promises, and that giving up was never said. */
  ghost predicate MachineSound(s: System, budget: int) {
    var m := s.machine;
    && m.maxAttempts == budget
    && 0 <= m.attempts <= Max(1, budget)
    && (m.state == Idle ==> m.attempts == m.generation == 0)
    && m.generation == |s.history|
    && s.announced == 0
  }

  /** Every attempt is spent once: waiting, being prepared, or on the wire.
      `spare` attempts are in the hands of the transition that is under way. */
  ghost predicate AttemptsSpent(s: System, spare: nat) {
    && |s.sleeping| + |s.preparing| + s.requests + spare <= s.machine.attempts
    && (forall step :: step in s.sleeping ==> IsTry(step))
  }

  /** A frame on any connection of a listed machine has settled it. */
  ghost predicate HeardIsSettled(s: System) {
    && (s.current.Some? ==> s.listed && s.current.value < |s.sources|)
    && (s.listed && Heard(s) ==> s.machine.state == Flowing || s.machine.state == Closed)
  }

  ghost predicate Heard(s: System) {
    exists i :: 0 <= i < |s.sources| && s.sources[i].receiving
  }

  /** Each answer under way answers the offer of its own generation. */
  ghost predicate AnswersMatch(s: System) {
    forall g :: g in s.answers ==>
      && s.answers[g].step.generation == g
      && 1 <= g <= |s.history|
      && s.history[g - 1] == Accepted(s.answers[g].step.sid)
  }

  /** The answers sent, oldest first, each name the offer of their generation;
      none is for a generation whose answer is still to be sent. */
  ghost predicate SentInOrder(s: System) {
    && (forall i :: 0 <= i < |s.replies| ==>
          && 1 <= s.replies[i].generation <= |s.history|
          && s.history[s.replies[i].generation - 1] == Accepted(s.replies[i].sid)
          && !(s.replies[i].generation in s.answers && s.answers[s.replies[i].generation].phase != Sending))
    && (forall i, j :: 0 <= i < j < |s.replies| ==> s.replies[i].generation < s.replies[j].generation)
  }

  ghost predicate Inv(s: System, budget: int, spare: nat) {
    MachineSound(s, budget) && AttemptsSpent(s, spare) && HeardIsSettled(s) && AnswersMatch(s) && SentInOrder(s)
  }

  function Spare(step: Step): nat {
    if IsTry(step) then 1 else 0
  }

  lemma ToldKeeps(s: System, budget: int, e: Event)
    requires Inv(s, budget, 0) && (e.Offer? ==> s.listed)
    ensures var (told, step) := Told(s, e);
            && Inv(told, budget, Spare(step))
            && (step.action == GiveUp ==> told.machine.state == GivenUp && step.delay == 0.0)
  {
  }

  lemma CarryOutKeeps(s: System, budget: int, step: Step)
    requires Inv(s, budget, Spare(step)) && (step.action == GiveUp ==> s.machine.state == GivenUp)
    ensures Inv(CarryOut(s, step), budget, 0)
  {
  }

  lemma PursueKeeps(s: System, budget: int, step: Step)
    requires Inv(s, budget, Spare(step))
    requires step.action == GiveUp ==> s.machine.state == GivenUp && step.delay == 0.0
    requires step.action != Answer
    ensures Inv(Pursue(s, step), budget, 0)
  {
    if step.action != Nothing && step.delay == 0.0 {
      CarryOutKeeps(s, budget, step);
    }
  }

  lemma LoseKeeps(s: System, budget: int, task: TaskName)
    requires Inv(s, budget, 0)
    ensures Inv(Lose(s, task), budget, 0)
    ensures task.Sleep? && task.step in s.sleeping ==> Inv(Lose(s, task), budget, 1) && IsTry(task.step)
    ensures task.Prepare? && task.step in s.preparing ==> Inv(Lose(s, task), budget, 1)
  {
    match task
    case Sleep(step) =>
    case Prepare(step) =>
    case Send =>
    case Watch(g) =>
    case AnswerOf(g) =>
  }

  /** Sending the answer of the machine's own generation. */
  lemma SendAnswerKeeps(s: System, budget: int, g: int)
    requires Inv(s, budget, 0) && g in s.answers && s.answers[g].phase == Describing && g == s.machine.generation
    ensures var task := s.answers[g];
            Inv(s.(replies := s.replies + [Reply(task.step.sid, g)],
                   answers := s.answers[g := task.(phase := Sending)]), budget, 0)
  {
  }

  lemma ContinueAnswerKeeps(s: System, budget: int, g: int)
    requires Inv(s, budget, 0) && g in s.answers
    ensures Inv(ContinueAnswer(s, g), budget, 0)
  {
    match s.answers[g].phase
    case ClosingReplaced(_) =>
    case Describing =>
      if g == s.machine.generation {
        SendAnswerKeeps(s, budget, g);
      }
    case Sending =>
      ToldKeeps(s, budget, AnswerSent(g));
      LoseKeeps(Told(s, AnswerSent(g)).0, budget, AnswerOf(g));
  }

  lemma TakeOfferKeeps(s: System, budget: int, sid: Option<string>)
    requires Inv(s, budget, 0) && s.listed
    ensures Inv(TakeOffer(s, sid), budget, 0)
  {
    ToldKeeps(s, budget, Offer(sid));
  }

  lemma WatchKeeps(s: System, budget: int, g: int)
    requires Inv(s, budget, 0)
    ensures Inv(Continue(s, Watch(g)), budget, 0)
  {
    var woken := Lose(s, Watch(g));
    LoseKeeps(s, budget, Watch(g));
    ToldKeeps(woken, budget, NoPublisher);
    PursueKeeps(Told(woken, NoPublisher).0, budget, Told(woken, NoPublisher).1);
  }

  lemma SleepKeeps(s: System, budget: int, step: Step)
    requires Inv(s, budget, 0)
    ensures Inv(Continue(s, Sleep(step)), budget, 0)
  {
    LoseKeeps(s, budget, Sleep(step));
    if step in s.sleeping {
      CarryOutKeeps(Lose(s, Sleep(step)), budget, step);
    }
  }

  lemma PrepareKeeps(s: System, budget: int, step: Step)
    requires Inv(s, budget, 0)
    ensures Inv(Continue(s, Prepare(step)), budget, 0)
  {
    LoseKeeps(s, budget, Prepare(step));
  }

  lemma ContinueKeeps(s: System, budget: int, task: TaskName)
    requires Inv(s, budget, 0)
    ensures Inv(Continue(s, task), budget, 0)
  {
    match task
    case Sleep(step) => SleepKeeps(s, budget, step);
    case Prepare(step) => PrepareKeeps(s, budget, step);
    case Send =>
    case Watch(g) => WatchKeeps(s, budget, g);
    case AnswerOf(g) =>
      if g in s.answers {
        ContinueAnswerKeeps(s, budget, g);
      }
  }

  lemma AfterKeeps(s: System, budget: int, h: Happening)
    requires Inv(s, budget, 0)
    ensures Inv(After(s, h), budget, 0)
  {
    match h
    case Begins =>
      ToldKeeps(s, budget, Start);
      PursueKeeps(Told(s, Start).0, budget, Told(s, Start).1);
    case OfferComes(sid) =>
      if s.listed {
        TakeOfferKeeps(s, budget, sid);
      }
    case RefusalComes =>
      ToldKeeps(s, budget, Refused(None));
      PursueKeeps(Told(s, Refused(None)).0, budget, Told(s, Refused(None)).1);
    case FrameComes(i) =>
      FrameKeeps(s, budget, i);
    case Continues(task) =>
      ContinueKeeps(s, budget, task);
    case Fails(task) =>
      LoseKeeps(s, budget, task);
    case StopsListening =>
    case CallCloses =>
      ToldKeeps(s, budget, Close);
  }

  lemma FrameKeeps(s: System, budget: int, i: nat)
    requires Inv(s, budget, 0)
    ensures Inv(After(s, FrameComes(i)), budget, 0)
  {
  }

  // -------------------------------------------------------------- theorems

  /** A system some run of happenings leads to, from a fresh machine. */
  ghost predicate Reachable(s: System, budget: int) {
    exists requestDelay: real, rebuildDelay: real, hs: seq<Happening> ::
      s == Run(Opened(Fresh(budget, requestDelay, rebuildDelay)), hs)
  }

  lemma {:induction false} RunKeeps(m: Machine, hs: seq<Happening>)
    requires m == Fresh(m.maxAttempts, m.requestDelay, m.rebuildDelay)
    ensures Inv(Run(Opened(m), hs), m.maxAttempts, 0)
  {
    if hs != [] {
      RunKeeps(m, Front(hs));
      AfterKeeps(Run(Opened(m), Front(hs)), m.maxAttempts, Last(hs));
    }
  }

  lemma ReachableKeeps(s: System, budget: int)
    requires Reachable(s, budget)
    ensures Inv(s, budget, 0)
  {
    var requestDelay: real, rebuildDelay: real, hs: seq<Happening> :|
      s == Run(Opened(Fresh(budget, requestDelay, rebuildDelay)), hs);
    RunKeeps(Fresh(budget, requestDelay, rebuildDelay), hs);
  }

  /** In every interleaving, the requests sent never exceed the attempts, and
      the attempts never exceed the budget (the opening request is always made). */
  lemma RequestsWithinBudget(s: System, budget: int)
    requires Reachable(s, budget)
    ensures s.requests <= s.machine.attempts <= Max(1, budget)
  {
    ReachableKeeps(s, budget);
  }

  /** An answer that goes out names the newest offer the machine accepted, with
      neither an offer nor a retry since - in every interleaving. */
  lemma AnswerNamesNewestOffer(s: System, budget: int, h: Happening)
    requires Reachable(s, budget)
    ensures After(s, h).replies != s.replies ==>
      && s.history != [] && Last(s.history).Accepted?
      && After(s, h).replies == s.replies + [Reply(Last(s.history).sid, |s.history|)]
  {
    ReachableKeeps(s, budget);
    if After(s, h).replies != s.replies {
      OnlyDescribingReplies(s, h);
      DescribedIsNewest(s, budget, h.task.generation);
    }
  }

  lemma DescribedIsNewest(s: System, budget: int, g: int)
    requires Inv(s, budget, 0) && g in s.answers && s.machine.generation == s.answers[g].step.generation
    ensures s.history != [] && Last(s.history) == Accepted(s.answers[g].step.sid)
    ensures |s.history| == s.answers[g].step.generation
  {
  }

  lemma OnlyDescribingReplies(s: System, h: Happening)
    requires After(s, h).replies != s.replies
    ensures h.Continues? && h.task.AnswerOf? && h.task.generation in s.answers
    ensures s.machine.generation == s.answers[h.task.generation].step.generation
    ensures var step := s.answers[h.task.generation].step;
            After(s, h).replies == s.replies + [Reply(step.sid, step.generation)]
  {
  }

  /** No offer is answered twice. */
  lemma EachOfferAnsweredOnce(s: System, budget: int, i: nat, j: nat)
    requires Reachable(s, budget) && i < j < |s.replies|
    ensures 1 <= s.replies[i].generation < s.replies[j].generation <= |s.history|
  {
    ReachableKeeps(s, budget);
  }

  /** A connection is replaced only while no connection of this negotiation has
      ever delivered a frame: neither a re-offer nor a repair takes down one that
      works. */
  lemma NoWorkingConnectionReplaced(s: System, budget: int, h: Happening)
    requires Reachable(s, budget)
    ensures |After(s, h).sources| != |s.sources| ==> !Heard(s)
  {
    ReachableKeeps(s, budget);
    if |After(s, h).sources| != |s.sources| {
      ReplacedWhileNegotiating(s, h);
    }
  }

  lemma PursueReplaces(s: System, step: Step)
    requires |Pursue(s, step).sources| != |s.sources| || |CarryOut(s, step).sources| != |s.sources|
    ensures s.listed && !Settled(s.machine.state)
  {
  }

  /** A machine that is settled stays so, whatever it is told. */
  lemma SettledStays(s: System, e: Event)
    requires Settled(s.machine.state)
    ensures Settled(Told(s, e).0.machine.state)
  {
  }

  lemma ContinuedWhileNegotiating(s: System, task: TaskName)
    requires |Continue(s, task).sources| != |s.sources|
    ensures s.listed && !Settled(s.machine.state)
  {
    match task
    case Sleep(step) =>
      PursueReplaces(Lose(s, task), step);
    case Prepare(_) =>
    case Send =>
    case Watch(_) =>
      var woken := Lose(s, task);
      PursueReplaces(Told(woken, NoPublisher).0, Told(woken, NoPublisher).1);
      if Settled(s.machine.state) {
        SettledStays(woken, NoPublisher);
      }
    case AnswerOf(_) =>
  }

  lemma ReplacedWhileNegotiating(s: System, h: Happening)
    requires |After(s, h).sources| != |s.sources|
    ensures s.listed && !Settled(s.machine.state)
  {
    match h
    case Begins =>
      PursueReplaces(Told(s, Start).0, Told(s, Start).1);
      if Settled(s.machine.state) {
        SettledStays(s, Start);
      }
    case OfferComes(_) =>
    case RefusalComes =>
      PursueReplaces(Told(s, Refused(None)).0, Told(s, Refused(None)).1);
      if Settled(s.machine.state) {
        SettledStays(s, Refused(None));
      }
    case FrameComes(_) =>
    case Continues(task) =>
      ContinuedWhileNegotiating(s, task);
    case Fails(_) =>
    case StopsListening =>
    case CallCloses =>
  }

  /** Giving up is decided but never announced: the step is handed out in a
      state in which `pursue` drops every step before it looks at its action. */
  lemma GivingUpNeverAnnounced(s: System, budget: int)
    requires Reachable(s, budget)
    ensures s.announced == 0
  {
    ReachableKeeps(s, budget);
  }

  function Refusals(n: nat): seq<Happening> {
    seq(n, _ => RefusalComes)
  }

  lemma PursueKeepsMachine(s: System, step: Step)
    ensures Pursue(s, step).machine == s.machine && Pursue(s, step).listed == s.listed
  {
  }

  /** A refusal while a request is out is one more attempt, or the end of them. */
  lemma RefusalCounts(s: System)
    requires s.listed && s.machine.state == Requested
    ensures var m, t := s.machine, After(s, RefusalComes);
      && t.listed && t.machine.maxAttempts == m.maxAttempts
      && (m.attempts < m.maxAttempts ==> t.machine.state == Requested && t.machine.attempts == m.attempts + 1)
      && (m.attempts >= m.maxAttempts ==> t.machine.state == GivenUp)
  {
    PursueKeepsMachine(Told(s, Refused(None)).0, Told(s, Refused(None)).1);
  }

  lemma {:induction false} RefusedSoFar(m: Machine, n: nat)
    requires m == Fresh(m.maxAttempts, m.requestDelay, m.rebuildDelay) && n < m.maxAttempts
    ensures var s := Run(Opened(m), [Begins] + Refusals(n));
      && s.listed && s.machine.state == Requested && s.machine.attempts == 1 + n
      && s.machine.maxAttempts == m.maxAttempts
  {
    if n == 0 {
      assert [Begins] + Refusals(0) == [Begins] && Front([Begins]) == [];
      PursueKeepsMachine(Told(Opened(m), Start).0, Told(Opened(m), Start).1);
    } else {
      RefusedSoFar(m, n - 1);
      assert Front([Begins] + Refusals(n)) == [Begins] + Refusals(n - 1);
      RefusalCounts(Run(Opened(m), [Begins] + Refusals(n - 1)));
    }
  }

  /** And it is decided: as many refusals as there are attempts lead to giving up, of
      which nothing is said. */
  lemma GivingUpReached(budget: nat, requestDelay: real, rebuildDelay: real)
    requires budget > 0
    ensures var s := Run(Opened(Fresh(budget, requestDelay, rebuildDelay)), [Begins] + Refusals(budget));
            s.machine.state == GivenUp && s.announced == 0
  {
    var m := Fresh(budget, requestDelay, rebuildDelay);
    RefusedSoFar(m, budget - 1);
    assert Front([Begins] + Refusals(budget)) == [Begins] + Refusals(budget - 1);
    RefusalCounts(Run(Opened(m), [Begins] + Refusals(budget - 1)));
    RunKeeps(m, [Begins] + Refusals(budget));
  }

  // ------------------------------------------------------- what is carried out

  lemma RunOne(s: System, h: Happening)
    ensures Run(s, [h]) == After(s, h)
  {
    assert Front([h]) == [];
  }

  lemma RunTwo(s: System, a: Happening, b: Happening)
    ensures Run(s, [a, b]) == After(After(s, a), b)
  {
    assert Front([a, b]) == [a];
    RunOne(s, a);
  }

  lemma RunThree(s: System, a: Happening, b: Happening, c: Happening)
    ensures Run(s, [a, b, c]) == After(After(After(s, a), b), c)
  {
    assert Front([a, b, c]) == [a, b];
    RunTwo(s, a, b);
  }

  /** A negotiation that still waits for audio, on a connection of its own. */
  predicate Waiting(s: System) {
    && s.listed && s.current.Some? && s.current.value < |s.sources|
    && !s.sources[s.current.value].receiving
    && s.machine.state in {Requested, Answering, Connecting}
  }

  function RebuildOf(m: Machine): Step {
    Step(Rebuild, m.rebuildDelay, None, m.generation + 1)
  }

  lemma RefusalRebuilds(s: System)
    requires Waiting(s) && s.machine.attempts < s.machine.maxAttempts && s.machine.rebuildDelay != 0.0
    ensures var t := After(After(s, RefusalComes), Continues(Sleep(RebuildOf(s.machine))));
      && t.sources == s.sources + [Source(false, false)] && t.current == Some(|s.sources|)
      && t.requests == s.requests && t.requesting == s.requesting && RebuildOf(s.machine) in t.preparing
  {
    var step := RebuildOf(s.machine);
    var one := After(s, RefusalComes);
    assert one.machine.generation == step.generation && !Settled(one.machine.state);
    assert step in one.sleeping && one.sources == s.sources && one.current == s.current;
  }

  /** A refusal, followed through while nothing is received: a new connection takes the place
      of the old one, and the participant is asked for again - once. */
  lemma RefusalReconnects(s: System)
    requires Waiting(s) && s.machine.attempts < s.machine.maxAttempts && s.machine.rebuildDelay != 0.0
    ensures var step := RebuildOf(s.machine);
            var t := Run(s, [RefusalComes, Continues(Sleep(step)), Continues(Prepare(step))]);
      && t.sources == s.sources + [Source(false, false)] && t.current == Some(|s.sources|)
      && t.requests == s.requests + 1 && t.requesting == s.requesting + 1
  {
    var step := RebuildOf(s.machine);
    RefusalRebuilds(s);
    RunThree(s, RefusalComes, Continues(Sleep(step)), Continues(Prepare(step)));
  }

  function RequestOf(m: Machine): Step {
    Step(Request, m.requestDelay, None, m.generation + 1)
  }

  lemma WatchRunsOut(s: System)
    requires Waiting(s) && s.machine.attempts < s.machine.maxAttempts && s.machine.requestDelay != 0.0
    requires s.machine.generation in s.watching
    ensures var t := After(s, Continues(Watch(s.machine.generation)));
      && RequestOf(s.machine) in t.sleeping && StillCurrent(t.machine, RequestOf(s.machine))
      && t.listed && t.sources == s.sources && t.current == s.current
      && t.requests == s.requests && t.requesting == s.requesting
  {
  }

  lemma SleeperRequests(s: System, step: Step)
    requires step in s.sleeping && step.action == Request && StillCurrent(s.machine, step)
    requires s.listed && s.current.Some?
    ensures var t := After(s, Continues(Sleep(step)));
      && t.sources == s.sources && t.current == s.current
      && t.requests == s.requests + 1 && t.requesting == s.requesting + 1
  {
  }

  /** A watch that runs out, followed through: the participant is asked for again on the
      connection there is. */
  lemma WatchAsksAgain(s: System)
    requires Waiting(s) && s.machine.attempts < s.machine.maxAttempts && s.machine.requestDelay != 0.0
    requires s.machine.generation in s.watching
    ensures var t := Run(s, [Continues(Watch(s.machine.generation)), Continues(Sleep(RequestOf(s.machine)))]);
      && t.sources == s.sources && t.current == s.current
      && t.requests == s.requests + 1 && t.requesting == s.requesting + 1
  {
    WatchRunsOut(s);
    SleeperRequests(After(s, Continues(Watch(s.machine.generation))), RequestOf(s.machine));
    RunTwo(s, Continues(Watch(s.machine.generation)), Continues(Sleep(RequestOf(s.machine))));
  }

  /** The beginning: one request goes out, and once it is on the wire somebody watches for the
      offer it asks for. */
  lemma BeginningIsWatched(m: Machine)
    requires m == Fresh(m.maxAttempts, m.requestDelay, m.rebuildDelay)
    ensures var t := Run(Opened(m), [Begins, Continues(Send)]);
      && t.requests == 1 && t.requesting == 0 && t.watching == multiset{0} && Waiting(t)
      && t.machine.generation == 0 && t.machine.attempts == 1 && t.sources == [Source(false, false)]
  {
    RunTwo(Opened(m), Begins, Continues(Send));
  }

  /** An offer taken up: described by the connection in use, and to be answered. */
  predicate Describes(s: System, g: int, sid: Option<string>) {
    && g in s.answers && s.answers[g] == AnswerTask(Step(Answer, 0.0, sid, g), Describing)
    && s.machine.generation == g && s.machine.state == Answering
  }

  /** The same connections, the same one in use. */
  predicate SameConnections(s: System, t: System) {
    t.sources == s.sources && t.current == s.current
  }

  lemma DescribedIsSent(s: System, g: int, sid: Option<string>)
    requires Describes(s, g, sid)
    ensures var t := After(s, Continues(AnswerOf(g)));
      && t.replies == s.replies + [Reply(sid, g)] && SameConnections(s, t) && t.machine == s.machine
      && g in t.answers && t.answers[g] == AnswerTask(Step(Answer, 0.0, sid, g), Sending)
  {
  }

  lemma SentConnects(s: System, g: int, sid: Option<string>)
    requires g in s.answers && s.answers[g] == AnswerTask(Step(Answer, 0.0, sid, g), Sending)
    requires s.machine.generation == g && s.machine.state == Answering
    ensures var t := After(s, Continues(AnswerOf(g)));
      && t.replies == s.replies && SameConnections(s, t) && t.machine.state == Connecting
      && g !in t.answers
  {
  }

  /** What is described is answered, once, and the machine then waits for audio. */
  lemma DescribedIsAnswered(s: System, g: int, sid: Option<string>)
    requires Describes(s, g, sid)
    ensures var t := Run(s, [Continues(AnswerOf(g)), Continues(AnswerOf(g))]);
      && t.replies == s.replies + [Reply(sid, g)] && SameConnections(s, t) && t.machine.state == Connecting
      && g !in t.answers
  {
    DescribedIsSent(s, g, sid);
    SentConnects(After(s, Continues(AnswerOf(g))), g, sid);
    RunTwo(s, Continues(AnswerOf(g)), Continues(AnswerOf(g)));
  }

  /** An offer on a connection that has answered none yet is described by that one. */
  lemma OfferIsDescribed(s: System, sid: Option<string>)
    requires Waiting(s) && !s.sources[s.current.value].answered
    ensures var t := After(s, OfferComes(sid));
      && Describes(t, s.machine.generation + 1, sid) && t.replies == s.replies && t.current == s.current
      && t.sources == s.sources[s.current.value := Source(false, true)]
  {
  }

  /** A further one gets a connection of its own, once the old one is closed. */
  lemma ReofferReplaces(s: System, sid: Option<string>)
    requires Waiting(s) && s.sources[s.current.value].answered
    ensures var g := s.machine.generation + 1; var t := After(s, OfferComes(sid));
      && t.sources == s.sources + [Source(false, false)] && t.current == Some(|s.sources|)
      && g in t.answers && t.answers[g] == AnswerTask(Step(Answer, 0.0, sid, g), ClosingReplaced(|s.sources|))
      && t.machine.generation == g && t.machine.state == Answering && t.replies == s.replies
  {
  }

  lemma ReplacementDescribes(s: System, g: int, sid: Option<string>, n: nat)
    requires g in s.answers && s.answers[g] == AnswerTask(Step(Answer, 0.0, sid, g), ClosingReplaced(n))
    requires n < |s.sources| && s.machine.generation == g && s.machine.state == Answering
    ensures var t := After(s, Continues(AnswerOf(g)));
      && Describes(t, g, sid) && t.replies == s.replies && t.current == s.current
      && t.sources == s.sources[n := Source(s.sources[n].receiving, true)]
  {
  }

  /** Every offer taken up, followed through, is answered once - on the connection in use, or,
      if that one has answered an offer before, on a new one. */
  lemma OfferIsAnswered(s: System, sid: Option<string>)
    requires Waiting(s)
    ensures var g := s.machine.generation + 1;
            var first := s.sources[s.current.value].answered;
            var taken := Run(s, [OfferComes(sid)] + if first then [Continues(AnswerOf(g))] else []);
            var t := Run(taken, [Continues(AnswerOf(g)), Continues(AnswerOf(g))]);
      && t.replies == s.replies + [Reply(sid, g)] && t.machine.state == Connecting && g !in t.answers
      && t.current == (if first then Some(|s.sources|) else s.current)
      && t.sources == (if first then s.sources + [Source(false, true)]
                       else s.sources[s.current.value := Source(false, true)])
  {
    var g := s.machine.generation + 1;
    if s.sources[s.current.value].answered {
      ReofferReplaces(s, sid);
      ReplacementDescribes(After(s, OfferComes(sid)), g, sid, |s.sources|);
      assert [OfferComes(sid)] + [Continues(AnswerOf(g))] == [OfferComes(sid), Continues(AnswerOf(g))];
      RunTwo(s, OfferComes(sid), Continues(AnswerOf(g)));
      DescribedIsAnswered(Run(s, [OfferComes(sid), Continues(AnswerOf(g))]), g, sid);
    } else {
      OfferIsDescribed(s, sid);
      assert [OfferComes(sid)] + [] == [OfferComes(sid)];
      RunOne(s, OfferComes(sid));
      DescribedIsAnswered(Run(s, [OfferComes(sid)]), g, sid);
    }
  }

  /** The first frame over any connection settles the negotiation. */
  lemma FrameSettles(s: System, i: nat)
    requires s.listed && i < |s.sources| && !s.sources[i].receiving && s.machine.state != Closed
    ensures var t := After(s, FrameComes(i));
      t.machine.state == Flowing && t.sources == s.sources[i := Source(true, s.sources[i].answered)]
  {
  }

  /** An answer whose offer is no longer the newest is dropped, and nothing is sent for it. */
  lemma StaleAnswerDropped(s: System, g: int)
    requires g in s.answers && s.answers[g].phase == Describing && s.answers[g].step.generation != s.machine.generation
    ensures After(s, Continues(AnswerOf(g))) == s.(answers := s.answers - {g})
  {
  }

  /** A watch for an offer of a generation that has passed does nothing. */
  lemma StaleWatchDropped(s: System, g: int)
    requires g in s.watching && g != s.machine.generation
    ensures After(s, Continues(Watch(g))) == s.(watching := s.watching - multiset{g})
  {
  }

  /** A participant nobody listens to is not heard: neither offers nor refusals reach the
      machine, nor do frames. */
  lemma UnlistedIsUnheard(s: System, h: Happening)
    requires !s.listed
    ensures h.OfferComes? || h.RefusalComes? ==> After(s, h) == s
    ensures h.FrameComes? ==> After(s, h) == s.(sources := After(s, h).sources)
  {
  }

  /** A task there is only one of. */
  predicate Single(s: System, task: TaskName) {
    match task
    case Sleep(step) => s.sleeping[step] == 1
    case Prepare(step) => s.preparing[step] == 1
    case Send => s.requesting == 1
    case Watch(g) => s.watching[g] == 1
    case AnswerOf(g) => g in s.answers
  }

  /** A task that was lost does nothing more, and has done nothing. */
  lemma LostDoesNothing(s: System, task: TaskName)
    requires Single(s, task)
    ensures var t := After(s, Fails(task));
      && After(t, Continues(task)) == t
      && t.machine == s.machine && SameConnections(s, t) && t.requests == s.requests && t.replies == s.replies
  {
  }

  /** Nobody listens any more. */
  predicate Deaf(s: System) {
    !s.listed && s.current.None?
  }

  lemma NextDeaf(s: System, h: Happening)
    requires Deaf(s)
    ensures var t := After(s, h);
      && Deaf(t) && |t.sources| == |s.sources|
      && t.requests + |t.preparing| <= s.requests + |s.preparing|
  {
    match h
    case Continues(task) => ContinuedDeaf(s, task);
    case _ =>
  }

  lemma ContinuedDeaf(s: System, task: TaskName)
    requires Deaf(s)
    ensures var t := Continue(s, task);
      && Deaf(t) && |t.sources| == |s.sources|
      && t.requests + |t.preparing| <= s.requests + |s.preparing|
  {
    match task
    case AnswerOf(g) =>
    case _ =>
  }

  /** Once listening has stopped, over any run: no connection is opened any more, and nothing
      is asked for beyond the repairs that were already taking a connection down. */
  lemma {:induction false} StoppedForGood(s: System, hs: seq<Happening>)
    ensures var t := Run(After(s, StopsListening), hs);
      && Deaf(t) && |t.sources| == |s.sources|
      && t.requests + |t.preparing| <= s.requests + |s.preparing|
  {
    if hs != [] {
      StoppedForGood(s, Front(hs));
      NextDeaf(Run(After(s, StopsListening), Front(hs)), Last(hs));
    }
  }
}
