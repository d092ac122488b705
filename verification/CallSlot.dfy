/** The one call a line holds (bridge/sip_call.py), and the audio sessions made for it,
    however requests from the far end, decisions here, timers and dialling cross. Each
    event is one stretch of code that runs under the lock, or between two such. */
module CallSlot {
  import opened Prelude
  import opened Sdp

  datatype Status = Ringing | Connected | Dialing

  /** An audio session: its number, the codec it carries, and where it sends, if that is
      not the gateway or the relay it was built with. */
  datatype Session = Session(number: nat, payload: nat, remote: Option<Media>)

  datatype Call = Call(id: string, inbound: bool, status: Status, rtp: Option<Session>, timer: Option<nat>,
                       offered: seq<nat>, media: Option<Media>)

  /** `answering`: answered, and the timer not yet set. `starting`: calls placed whose
      session is still to be opened. `dialling`: sessions of attempts still running, with
      their Call-ID. `closing`, `cancelling`: taken by a hangup that is about to close and
      cancel them. `lost`: sessions of calls picked up when they were no longer the
      line's; `dropped`: sessions another took the place of; nobody closes either.
      `answered`: the sessions of incoming calls. `running`: timers that can still be
      cancelled. `firing`: timers that have expired and wait for the lock to hang up.
      `stale`: timers that were let go: not on the call, and nobody will stop them. */
  datatype State = State(
    call: Option<Call>, made: nat,
    answering: map<nat, string>, starting: set<string>, dialling: map<nat, string>,
    closing: multiset<nat>, closed: multiset<nat>, lost: multiset<nat>, dropped: multiset<nat>, answered: set<nat>,
    cancelling: set<nat>, running: set<nat>, firing: set<nat>, stale: set<nat>)

  const IDLE := State(None, 0, map[], {}, map[], multiset{}, multiset{}, multiset{}, multiset{}, {}, {}, {}, {}, {})

  datatype Event =
    | Invite(id: string, offered: seq<nat>, media: Option<Media>)
    | Answer
    | TimerSet(number: nat)
    | Decline
    | ByeOrCancel(id: string)
    | HangUp
    | TimerExpires(number: nat)
    | TimerFires(number: nat)
    | CancelTimer(number: nat)
    | Close(number: nat)
    | Dial(id: string)
    | Opens(id: string)
    | OpenFails(id: string)
    | PickedUp(number: nat, answered: seq<nat>, media: Option<Media>)
    | NotReached(number: nat)

  // -------------------------------------------------- one function per event

  function Offered(id: string, offered: seq<nat>, media: Option<Media>): Call {
    Call(id, true, Ringing, None, None, offered, media)
  }

  /** Whether a re-INVITE still offers the codec of the call. */
  predicate StillOffers(rtp: Session, offered: seq<nat>) {
    offered == [] || rtp.payload in offered
  }

  function Moved(rtp: Session, media: Option<Media>, relayed: bool): Session {
    if media.Some? && !relayed then rtp.(remote := media) else rtp
  }

  predicate IsReoffer(call: Option<Call>, id: string) {
    call.Some? && call.value.id == id && call.value.status == Connected
  }

  function Invited(s: State, id: string, offered: seq<nat>, media: Option<Media>, relayed: bool): State {
    if s.call.None? then s.(call := Some(Offered(id, offered, media)))
    else if IsReoffer(s.call, id) && s.call.value.rtp.Some? && StillOffers(s.call.value.rtp.value, offered)
    then s.(call := Some(s.call.value.(rtp := Some(Moved(s.call.value.rtp.value, media, relayed)))))
    else s
  }

  /** What the far end is told. */
  function InviteReply(s: State, id: string, offered: seq<nat>): nat {
    if s.call.None? then 180
    else if !IsReoffer(s.call, id) then 486
    else if s.call.value.rtp.Some? && StillOffers(s.call.value.rtp.value, offered) then 200
    else 488
  }

  predicate IsRinging(s: State) {
    s.call.Some? && s.call.value.status == Ringing
  }

  function Timers(call: Option<Call>): set<nat> {
    if call.Some? && call.value.timer.Some? then {call.value.timer.value} else {}
  }

  /** The line is free again; a timer still set on the call is left running. */
  function Dropped(s: State): State {
    s.(call := None, stale := s.stale + Timers(s.call))
  }

  function Accepted(s: State, pt: nat, relayed: bool): State
    requires s.call.Some?
  {
    var c := s.call.value;
    var rtp := Session(s.made, pt, if relayed then None else c.media);
    s.(call := Some(c.(status := Connected, rtp := Some(rtp))), made := s.made + 1,
       answering := s.answering[s.made := c.id], answered := s.answered + {s.made})
  }

  function Answered(s: State, relayed: bool): State {
    if !IsRinging(s) then s
    else
      match Choose(s.call.value.offered)
      case None => Dropped(s)
      case Some(pt) => Accepted(s, pt, relayed)
  }

  function Declined(s: State): State {
    if IsRinging(s) then Dropped(s) else s
  }

  /** A timer is started, whether or not there still is a call to set it on. */
  function WithTimer(s: State, number: nat, id: string): State {
    if s.call.Some? && s.call.value.id == id
    then s.(call := Some(s.call.value.(timer := Some(number))), running := s.running + {number},
            stale := s.stale + Timers(s.call))
    else s.(running := s.running + {number}, stale := s.stale + {number})
  }

  function SetTimer(s: State, number: nat): State {
    if number !in s.answering then s
    else WithTimer(s.(answering := s.answering - {number}), number, s.answering[number])
  }

  function Sessions(c: Call): multiset<nat> {
    if c.rtp.Some? then multiset{c.rtp.value.number} else multiset{}
  }

  function Held(call: Option<Call>): multiset<nat> {
    if call.Some? then Sessions(call.value) else multiset{}
  }

  function EndedByPeer(s: State, id: string): State {
    if s.call.Some? && s.call.value.id == id
    then s.(call := None, running := s.running - Timers(s.call), stale := s.stale + Timers(s.call) * s.firing,
            closed := s.closed + Held(s.call))
    else s
  }

  function Taken(s: State): State {
    if s.call.None? then s
    else s.(call := None, cancelling := s.cancelling + Timers(s.call), stale := s.stale + Timers(s.call) * s.firing,
            closing := s.closing + Held(s.call))
  }

  /** An expired timer is past cancelling: it is on its way to hang up. */
  function Expired(s: State, number: nat): State {
    if number !in s.running then s
    else s.(running := s.running - {number}, firing := s.firing + {number},
            stale := s.stale + ({number} * s.cancelling))
  }

  function Fired(s: State, number: nat): State {
    if number in s.firing then Taken(s.(firing := s.firing - {number})) else s
  }

  function Stopped(s: State, number: nat): State {
    if number in s.cancelling
    then s.(cancelling := s.cancelling - {number}, running := s.running - {number}) else s
  }

  function Closed(s: State, number: nat): State {
    if number !in s.closing then s
    else s.(closing := s.closing - multiset{number}, closed := s.closed + multiset{number})
  }

  function Dialled(s: State, id: string): State {
    if s.call.Some? then s
    else s.(call := Some(Call(id, false, Dialing, None, None, [], None)), starting := s.starting + {id})
  }

  function SessionOpened(s: State, id: string): State {
    if id !in s.starting then s
    else s.(starting := s.starting - {id}, made := s.made + 1, dialling := s.dialling[s.made := id])
  }

  /** The codec an answer settles on: the one the session was built with if none. */
  function Settled(answered: seq<nat>): nat {
    match Choose(answered)
    case Some(pt) => pt
    case None => PCMU
  }

  /** A call picked up takes the place of whatever session its line held. */
  function Taking(s: State, rtp: Session): State
    requires s.call.Some?
  {
    s.(call := Some(s.call.value.(status := Connected, rtp := Some(rtp))), dropped := s.dropped + Held(s.call))
  }

  /** The session of a call picked up goes to the call, if that is still there. */
  function Placed(s: State, id: string, rtp: Session): State {
    if s.call.Some? && s.call.value.id == id then Taking(s, rtp)
    else s.(lost := s.lost + multiset{rtp.number})
  }

  function PickedUpWith(number: nat, answered: seq<nat>, media: Option<Media>, relayed: bool): Session {
    Session(number, Settled(answered), if relayed then None else media)
  }

  function Connects(s: State, number: nat, answered: seq<nat>, media: Option<Media>, relayed: bool): State {
    if number !in s.dialling then s
    else
      var id := s.dialling[number];
      WithTimer(Placed(s.(dialling := s.dialling - {number}), id, PickedUpWith(number, answered, media, relayed)),
                number, id)
  }

  function Fails(s: State, number: nat): State {
    if number !in s.dialling then s
    else
      var t := s.(dialling := s.dialling - {number}, closed := s.closed + multiset{number});
      if t.call.Some? && t.call.value.id == s.dialling[number]
      then Dropped(t.(dropped := t.dropped + Held(t.call))) else t
  }

  function Next(s: State, e: Event, relayed: bool): State {
    match e
    case Invite(id, offered, media) => Invited(s, id, offered, media, relayed)
    case Answer => Answered(s, relayed)
    case TimerSet(number) => SetTimer(s, number)
    case Decline => Declined(s)
    case ByeOrCancel(id) => EndedByPeer(s, id)
    case HangUp => Taken(s)
    case TimerExpires(number) => Expired(s, number)
    case TimerFires(number) => Fired(s, number)
    case CancelTimer(number) => Stopped(s, number)
    case Close(number) => Closed(s, number)
    case Dial(id) => Dialled(s, id)
    case Opens(id) => SessionOpened(s, id)
    case OpenFails(id) => s.(starting := s.starting - {id})
    case PickedUp(number, answered, media) => Connects(s, number, answered, media, relayed)
    case NotReached(number) => Fails(s, number)
  }

  function Run(events: seq<Event>, relayed: bool): State {
    if events == [] then IDLE else Next(Run(Front(events), relayed), Last(events), relayed)
  }

  lemma RunSnoc(events: seq<Event>, e: Event, relayed: bool)
    ensures Run(events + [e], relayed) == Next(Run(events, relayed), e, relayed)
  {
    assert Front(events + [e]) == events;
  }

  // ----------------------------------------------- every session, once, somewhere

  /** Where the sessions are: with the call, with an attempt, with a hangup, closed, or
      out of reach. */
  function Whereabouts(s: State): multiset<nat> {
    Held(s.call) + multiset(s.dialling.Keys) + s.closing + s.closed + (s.lost + s.dropped)
  }

  function Made(n: nat): multiset<nat> {
    if n == 0 then multiset{} else Made(n - 1) + multiset{n - 1}
  }

  lemma {:induction false} MadeOnce(n: nat, k: nat)
    ensures Made(n)[k] == if k < n then 1 else 0
  {
    if n > 0 {
      MadeOnce(n - 1, k);
    }
  }

  /** Every session that was made is in exactly one place. */
  predicate Conserved(s: State) {
    Whereabouts(s) == Made(s.made)
  }

  /** A call holds a session from when it is connected. */
  predicate Shaped(call: Option<Call>) {
    call.Some? ==> (call.value.rtp.Some? <==> call.value.status == Connected)
  }

  lemma NextShaped(s: State, e: Event, relayed: bool)
    requires Shaped(s.call)
    ensures Shaped(Next(s, e, relayed).call)
  {
  }

  lemma KeysWithout(m: map<nat, string>, n: nat)
    requires n in m
    ensures multiset((m - {n}).Keys) + multiset{n} == multiset(m.Keys)
  {
    assert (m - {n}).Keys == m.Keys - {n};
  }

  lemma KeysWith(m: map<nat, string>, n: nat, id: string)
    requires n !in m
    ensures multiset(m[n := id].Keys) == multiset(m.Keys) + multiset{n}
  {
    assert m[n := id].Keys == m.Keys + {n};
  }

  lemma InPlace(s: State, n: nat)
    requires Conserved(s) && n in s.dialling
    ensures n < s.made
  {
    MadeOnce(s.made, n);
    assert multiset(s.dialling.Keys)[n] == 1;
    assert Whereabouts(s)[n] >= 1;
  }

  lemma TimerKeepsPlaces(s: State, number: nat, id: string)
    ensures Whereabouts(WithTimer(s, number, id)) == Whereabouts(s)
  {
  }

  lemma TakingAdds(s: State, rtp: Session)
    requires s.call.Some?
    ensures Whereabouts(Taking(s, rtp)) == Whereabouts(s) + multiset{rtp.number}
  {
  }

  lemma LosingAdds(s: State, number: nat)
    ensures Whereabouts(s.(lost := s.lost + multiset{number})) == Whereabouts(s) + multiset{number}
  {
  }

  lemma PlacedAdds(s: State, id: string, rtp: Session)
    ensures Whereabouts(Placed(s, id, rtp)) == Whereabouts(s) + multiset{rtp.number}
  {
    if s.call.Some? && s.call.value.id == id {
      TakingAdds(s, rtp);
    } else {
      LosingAdds(s, rtp.number);
    }
  }

  lemma LeavesDialling(s: State, number: nat)
    requires number in s.dialling
    ensures Whereabouts(s.(dialling := s.dialling - {number})) + multiset{number} == Whereabouts(s)
  {
    KeysWithout(s.dialling, number);
  }

  lemma AcceptedConserved(s: State, pt: nat, relayed: bool)
    requires Conserved(s) && s.call.Some? && Held(s.call) == multiset{}
    ensures Conserved(Accepted(s, pt, relayed))
  {
    assert Held(Accepted(s, pt, relayed).call) == multiset{s.made};
  }

  lemma DroppedConserved(s: State)
    requires Conserved(s) && Held(s.call) == multiset{}
    ensures Conserved(Dropped(s))
  {
  }

  lemma AnsweredConserved(s: State, relayed: bool)
    requires Conserved(s) && Shaped(s.call)
    ensures Conserved(Answered(s, relayed))
  {
    if IsRinging(s) {
      match Choose(s.call.value.offered)
      case None => DroppedConserved(s);
      case Some(pt) => AcceptedConserved(s, pt, relayed);
    }
  }

  lemma DialledConserved(s: State, id: string)
    requires Conserved(s)
    ensures Conserved(Dialled(s, id))
  {
    assert s.call.None? ==> Held(Dialled(s, id).call) == Held(s.call);
  }

  lemma OpenedAdds(s: State, id: string)
    requires id in s.starting && s.made !in s.dialling
    ensures Whereabouts(SessionOpened(s, id)) == Whereabouts(s) + multiset{s.made}
  {
    KeysWith(s.dialling, s.made, id);
  }

  lemma OpenedConserved(s: State, id: string)
    requires Conserved(s)
    ensures Conserved(SessionOpened(s, id))
  {
    if s.made in s.dialling {
      InPlace(s, s.made);
    }
    if id in s.starting {
      OpenedAdds(s, id);
    }
  }

  lemma ConnectsConserved(s: State, number: nat, answered: seq<nat>, media: Option<Media>, relayed: bool)
    requires Conserved(s)
    ensures Conserved(Connects(s, number, answered, media, relayed))
  {
    if number in s.dialling {
      var id := s.dialling[number];
      var t := s.(dialling := s.dialling - {number});
      var rtp := PickedUpWith(number, answered, media, relayed);
      LeavesDialling(s, number);
      PlacedAdds(t, id, rtp);
      TimerKeepsPlaces(Placed(t, id, rtp), number, id);
    }
  }

  lemma ClosingAdds(s: State, number: nat)
    ensures Whereabouts(s.(closed := s.closed + multiset{number})) == Whereabouts(s) + multiset{number}
  {
  }

  lemma DroppingKeepsPlaces(s: State)
    ensures Whereabouts(Dropped(s.(dropped := s.dropped + Held(s.call)))) == Whereabouts(s)
  {
  }

  lemma FailsConserved(s: State, number: nat)
    requires Conserved(s)
    ensures Conserved(Fails(s, number))
  {
    if number in s.dialling {
      var left := s.(dialling := s.dialling - {number});
      LeavesDialling(s, number);
      ClosingAdds(left, number);
      DroppingKeepsPlaces(left.(closed := left.closed + multiset{number}));
    }
  }

  lemma TakenConserved(s: State)
    requires Conserved(s)
    ensures Conserved(Taken(s))
  {
  }

  lemma SameHeldConserved(s: State, call: Option<Call>)
    requires Conserved(s) && Held(call) == Held(s.call)
    ensures Conserved(s.(call := call))
  {
  }

  lemma InvitedHolds(s: State, id: string, offered: seq<nat>, media: Option<Media>, relayed: bool)
    ensures var t := Invited(s, id, offered, media, relayed); t == s.(call := t.call) && Held(t.call) == Held(s.call)
  {
  }

  lemma InvitedConserved(s: State, id: string, offered: seq<nat>, media: Option<Media>, relayed: bool)
    requires Conserved(s)
    ensures Conserved(Invited(s, id, offered, media, relayed))
  {
    InvitedHolds(s, id, offered, media, relayed);
    SameHeldConserved(s, Invited(s, id, offered, media, relayed).call);
  }

  lemma DeclinedConserved(s: State)
    requires Conserved(s) && Shaped(s.call)
    ensures Conserved(Declined(s))
  {
    if IsRinging(s) {
      DroppedConserved(s);
    }
  }

  lemma EndedConserved(s: State, id: string)
    requires Conserved(s)
    ensures Conserved(EndedByPeer(s, id))
  {
  }

  lemma ClosedConserved(s: State, number: nat)
    requires Conserved(s)
    ensures Conserved(Closed(s, number))
  {
    if number in s.closing {
      assert s.closing - multiset{number} + multiset{number} == s.closing;
    }
  }

  lemma SetTimerConserved(s: State, number: nat)
    requires Conserved(s)
    ensures Conserved(SetTimer(s, number))
  {
    if number in s.answering {
      TimerKeepsPlaces(s.(answering := s.answering - {number}), number, s.answering[number]);
    }
  }

  lemma FiredConserved(s: State, number: nat)
    requires Conserved(s)
    ensures Conserved(Fired(s, number))
  {
    TakenConserved(s.(firing := s.firing - {number}));
  }

  lemma StoppedConserved(s: State, number: nat)
    requires Conserved(s)
    ensures Conserved(Stopped(s, number)) && Conserved(Expired(s, number))
  {
  }

  lemma NextConservedThere(s: State, e: Event, relayed: bool)
    requires Conserved(s) && (e.Invite? || e.ByeOrCancel? || e.PickedUp? || e.NotReached?)
    ensures Conserved(Next(s, e, relayed))
  {
    match e
    case Invite(id, offered, media) => InvitedConserved(s, id, offered, media, relayed);
    case ByeOrCancel(id) => EndedConserved(s, id);
    case PickedUp(number, answered, media) => ConnectsConserved(s, number, answered, media, relayed);
    case NotReached(number) => FailsConserved(s, number);
  }

  lemma NextConservedHere(s: State, e: Event, relayed: bool)
    requires Conserved(s) && Shaped(s.call) && (e.Answer? || e.Decline? || e.HangUp?)
    ensures Conserved(Next(s, e, relayed))
  {
    match e
    case Answer => AnsweredConserved(s, relayed);
    case Decline => DeclinedConserved(s);
    case HangUp => TakenConserved(s);
  }

  lemma NextConservedPlaced(s: State, e: Event, relayed: bool)
    requires Conserved(s) && (e.Dial? || e.Opens? || e.OpenFails?)
    ensures Conserved(Next(s, e, relayed))
  {
    match e
    case Dial(id) => DialledConserved(s, id);
    case Opens(id) => OpenedConserved(s, id);
    case OpenFails(id) =>
  }

  lemma NextConservedLater(s: State, e: Event, relayed: bool)
    requires Conserved(s) && (e.TimerSet? || e.TimerExpires? || e.TimerFires? || e.CancelTimer? || e.Close?)
    ensures Conserved(Next(s, e, relayed))
  {
    match e
    case TimerSet(number) => SetTimerConserved(s, number);
    case TimerExpires(number) => StoppedConserved(s, number);
    case TimerFires(number) => FiredConserved(s, number);
    case CancelTimer(number) => StoppedConserved(s, number);
    case Close(number) => ClosedConserved(s, number);
  }

  lemma NextConserved(s: State, e: Event, relayed: bool)
    requires Conserved(s) && Shaped(s.call)
    ensures Conserved(Next(s, e, relayed))
  {
    if e.Invite? || e.ByeOrCancel? || e.PickedUp? || e.NotReached? {
      NextConservedThere(s, e, relayed);
    } else if e.Answer? || e.Decline? || e.HangUp? {
      NextConservedHere(s, e, relayed);
    } else if e.Dial? || e.Opens? || e.OpenFails? {
      NextConservedPlaced(s, e, relayed);
    } else {
      NextConservedLater(s, e, relayed);
    }
  }

  lemma {:induction false} RunConserved(events: seq<Event>, relayed: bool)
    ensures Conserved(Run(events, relayed)) && Shaped(Run(events, relayed).call)
  {
    if events != [] {
      RunConserved(Front(events), relayed);
      NextConserved(Run(Front(events), relayed), Last(events), relayed);
      NextShaped(Run(Front(events), relayed), Last(events), relayed);
    }
  }

  /** In every interleaving each session that was opened is held by the call, or by an
      attempt, or by a hangup about to close it, or has been closed, once, or is out of
      reach - and is in one of these places only. */
  lemma EachSessionSomewhereOnce(events: seq<Event>, relayed: bool, n: nat)
    ensures var s := Run(events, relayed);
      Held(s.call)[n] + (if n in s.dialling then 1 else 0) + s.closing[n] + s.closed[n] + s.lost[n] + s.dropped[n]
      == if n < s.made then 1 else 0
  {
    var s := Run(events, relayed);
    RunConserved(events, relayed);
    MadeOnce(s.made, n);
    assert Whereabouts(s)[n] == Made(s.made)[n];
    assert multiset(s.dialling.Keys)[n] == if n in s.dialling then 1 else 0;
  }

  // --------------------------------------------- which sessions can get away

  /** The sessions of incoming calls are no attempt's, and never lost to one. */
  predicate InboundApart(s: State) {
    && (forall n :: n in s.answered ==> n < s.made && n !in s.dialling && s.lost[n] == 0)
    && (forall n :: n in s.dialling ==> n < s.made)
  }

  lemma FreshIsNowhere(s: State, n: nat)
    requires Conserved(s) && n >= s.made
    ensures n !in s.dialling && s.lost[n] == 0
  {
    MadeOnce(s.made, n);
    assert Whereabouts(s)[n] == 0;
    assert multiset(s.dialling.Keys)[n] == if n in s.dialling then 1 else 0;
  }

  lemma AcceptedApart(s: State, relayed: bool)
    requires InboundApart(s) && s.made !in s.dialling && s.lost[s.made] == 0
    ensures InboundApart(Answered(s, relayed)) && InboundApart(Declined(s))
  {
  }

  lemma ConnectsInboundApart(s: State, number: nat, answered: seq<nat>, media: Option<Media>, relayed: bool)
    requires InboundApart(s)
    ensures InboundApart(Connects(s, number, answered, media, relayed)) && InboundApart(Fails(s, number))
  {
  }

  lemma NextInboundApart(s: State, e: Event, relayed: bool)
    requires Conserved(s) && InboundApart(s)
    ensures InboundApart(Next(s, e, relayed))
  {
    if e.Answer? || e.Decline? {
      FreshIsNowhere(s, s.made);
      AcceptedApart(s, relayed);
    } else if e.PickedUp? {
      ConnectsInboundApart(s, e.number, e.answered, e.media, relayed);
    } else if e.NotReached? {
      ConnectsInboundApart(s, e.number, [], None, relayed);
    }
  }

  lemma {:induction false} RunInboundApart(events: seq<Event>, relayed: bool)
    ensures InboundApart(Run(events, relayed))
  {
    if events != [] {
      RunInboundApart(Front(events), relayed);
      RunConserved(Front(events), relayed);
      NextInboundApart(Run(Front(events), relayed), Last(events), relayed);
    }
  }

  /** An incoming call is answered, with session n. */
  predicate Answers(s: State, e: Event, n: nat) {
    e.Answer? && IsRinging(s) && Choose(s.call.value.offered).Some? && n == s.made
  }

  predicate WasAnswered(events: seq<Event>, relayed: bool, n: nat) {
    events != [] &&
    (WasAnswered(Front(events), relayed, n) || Answers(Run(Front(events), relayed), Last(events), n))
  }

  /** The sessions of incoming calls are those their answers opened. */
  lemma {:induction false} AnsweredIff(events: seq<Event>, relayed: bool, n: nat)
    ensures n in Run(events, relayed).answered <==> WasAnswered(events, relayed, n)
  {
    if events != [] {
      AnsweredIff(Front(events), relayed, n);
      NextAnswered(Run(Front(events), relayed), Last(events), relayed, n);
    }
  }

  lemma NextAnswered(s: State, e: Event, relayed: bool, n: nat)
    ensures n in Next(s, e, relayed).answered <==> n in s.answered || Answers(s, e, n)
  {
  }

  /** Every session opened for an incoming call is held by the call, owned by one hangup
      about to close it, closed once, or had its place taken. */
  lemma InboundConserved(events: seq<Event>, relayed: bool, n: nat)
    requires n in Run(events, relayed).answered
    ensures var s := Run(events, relayed); Held(s.call)[n] + s.closing[n] + s.closed[n] + s.dropped[n] == 1
  {
    RunInboundApart(events, relayed);
    EachSessionSomewhereOnce(events, relayed, n);
  }

  /** The Call-IDs of the calls placed from here, and of those that rang here. */
  function Placing(events: seq<Event>): set<string> {
    if events == [] then {} else Placing(Front(events)) + if Last(events).Dial? then {Last(events).id} else {}
  }

  function Rung(events: seq<Event>): set<string> {
    if events == [] then {} else Rung(Front(events)) + if Last(events).Invite? then {Last(events).id} else {}
  }

  /** Every call placed gets a Call-ID of its own, and no call rings under one of these. */
  predicate OwnIds(events: seq<Event>, relayed: bool) {
    events == [] ||
    (OwnIds(Front(events), relayed) &&
     match Last(events)
     case Dial(id) => id !in Placing(Front(events)) && id !in Rung(Front(events))
     case Invite(id, _, _) => Run(Front(events), relayed).call.None? ==> id !in Placing(Front(events))
     case _ => true)
  }

  /** A call that an attempt is still running for has no session yet. */
  predicate Waiting(s: State, placing: set<string>, rung: set<string>) {
    && s.dropped == multiset{}
    && s.starting <= placing
    && (forall n :: n in s.dialling ==> s.dialling[n] in placing && s.dialling[n] !in s.starting)
    && (forall m, n :: m in s.dialling && n in s.dialling && m != n ==> s.dialling[m] != s.dialling[n])
    && (s.call.Some? ==>
          && (if s.call.value.inbound then s.call.value.id in rung && s.call.value.id !in placing
              else s.call.value.id in placing)
          && (s.call.value.rtp.Some? ==>
                s.call.value.id !in s.starting && forall n :: n in s.dialling ==> s.dialling[n] != s.call.value.id))
  }

  lemma InvitedWaits(s: State, id: string, offered: seq<nat>, media: Option<Media>, relayed: bool,
                     placing: set<string>, rung: set<string>)
    requires Waiting(s, placing, rung) && (s.call.None? ==> id !in placing)
    ensures Waiting(Invited(s, id, offered, media, relayed), placing, rung + {id})
  {
  }

  lemma DialledWaits(s: State, id: string, placing: set<string>, rung: set<string>)
    requires Waiting(s, placing, rung) && id !in placing && id !in rung
    ensures Waiting(Dialled(s, id), placing + {id}, rung)
  {
  }

  lemma OpenedWaits(s: State, id: string, placing: set<string>, rung: set<string>)
    requires Waiting(s, placing, rung) && s.made !in s.dialling
    ensures Waiting(SessionOpened(s, id), placing, rung) && Waiting(s.(starting := s.starting - {id}), placing, rung)
  {
  }

  lemma AnsweredWaits(s: State, relayed: bool, placing: set<string>, rung: set<string>)
    requires Waiting(s, placing, rung) && Shaped(s.call) && RingsInbound(s.call)
    ensures Waiting(Answered(s, relayed), placing, rung) && Waiting(Declined(s), placing, rung)
  {
  }

  /** Only incoming calls ring. */
  predicate RingsInbound(call: Option<Call>) {
    call.Some? && call.value.status == Ringing ==> call.value.inbound
  }

  lemma NextRingsInbound(s: State, e: Event, relayed: bool)
    requires RingsInbound(s.call)
    ensures RingsInbound(Next(s, e, relayed).call)
  {
  }

  lemma ConnectsWaits(s: State, number: nat, answered: seq<nat>, media: Option<Media>, relayed: bool,
                      placing: set<string>, rung: set<string>)
    requires Waiting(s, placing, rung)
    ensures Waiting(Connects(s, number, answered, media, relayed), placing, rung)
    ensures Waiting(Fails(s, number), placing, rung)
  {
    if number in s.dialling && s.call.Some? && s.call.value.id == s.dialling[number] {
      assert Held(s.call) == multiset{};
    }
  }

  lemma NextWaits(s: State, e: Event, relayed: bool, placing: set<string>, rung: set<string>)
    requires Waiting(s, placing, rung) && Shaped(s.call) && RingsInbound(s.call) && s.made !in s.dialling
    requires e.Dial? ==> e.id !in placing && e.id !in rung
    requires e.Invite? && s.call.None? ==> e.id !in placing
    ensures Waiting(Next(s, e, relayed), placing + (if e.Dial? then {e.id} else {}),
                    rung + (if e.Invite? then {e.id} else {}))
  {
    assert placing + {} == placing && rung + {} == rung;
    if e.Dial? || e.Opens? || e.OpenFails? || e.PickedUp? || e.NotReached? {
      NextWaitsPlaced(s, e, relayed, placing, rung);
    } else if e.Invite? {
      InvitedWaits(s, e.id, e.offered, e.media, relayed, placing, rung);
    } else {
      NextWaitsHere(s, e, relayed, placing, rung);
    }
  }

  lemma NextWaitsPlaced(s: State, e: Event, relayed: bool, placing: set<string>, rung: set<string>)
    requires Waiting(s, placing, rung) && s.made !in s.dialling
    requires e.Dial? || e.Opens? || e.OpenFails? || e.PickedUp? || e.NotReached?
    requires e.Dial? ==> e.id !in placing && e.id !in rung
    ensures Waiting(Next(s, e, relayed), if e.Dial? then placing + {e.id} else placing, rung)
  {
    match e
    case Dial(id) => DialledWaits(s, id, placing, rung);
    case Opens(id) => OpenedWaits(s, id, placing, rung);
    case OpenFails(id) => OpenedWaits(s, id, placing, rung);
    case PickedUp(number, answered, media) => ConnectsWaits(s, number, answered, media, relayed, placing, rung);
    case NotReached(number) => ConnectsWaits(s, number, [], None, relayed, placing, rung);
  }

  lemma NextWaitsHere(s: State, e: Event, relayed: bool, placing: set<string>, rung: set<string>)
    requires Waiting(s, placing, rung) && Shaped(s.call) && RingsInbound(s.call)
    requires !(e.Dial? || e.Opens? || e.OpenFails? || e.PickedUp? || e.NotReached? || e.Invite?)
    ensures Waiting(Next(s, e, relayed), placing, rung)
  {
    if e.Answer? || e.Decline? {
      AnsweredWaits(s, relayed, placing, rung);
    }
  }

  lemma {:induction false} RunWaits(events: seq<Event>, relayed: bool)
    requires OwnIds(events, relayed)
    ensures Waiting(Run(events, relayed), Placing(events), Rung(events)) && RingsInbound(Run(events, relayed).call)
  {
    if events != [] {
      var s := Run(Front(events), relayed);
      RunWaits(Front(events), relayed);
      RunConserved(Front(events), relayed);
      FreshIsNowhere(s, s.made);
      NextWaits(s, Last(events), relayed, Placing(Front(events)), Rung(Front(events)));
      NextRingsInbound(s, Last(events), relayed);
    }
  }

  /** So while Call-IDs are not reused across directions, no place is ever taken: each
      session opened for an incoming call is held by the call, owned by one hangup about
      to close it, or closed exactly once. */
  lemma InboundNeverLost(events: seq<Event>, relayed: bool, n: nat)
    requires OwnIds(events, relayed) && n in Run(events, relayed).answered
    ensures var s := Run(events, relayed); Held(s.call)[n] + s.closing[n] + s.closed[n] == 1
  {
    RunWaits(events, relayed);
    InboundConserved(events, relayed, n);
  }

  predicate IsCall(s: State, id: string) {
    s.call.Some? && s.call.value.id == id
  }

  /** An attempt is picked up when its call is the line's no more. */
  predicate Misses(s: State, e: Event, n: nat) {
    e.PickedUp? && e.number == n && n in s.dialling && !IsCall(s, s.dialling[n])
  }

  /** An attempt ends under the Call-ID of a call that holds session n already. */
  predicate Displaces(s: State, e: Event, n: nat) {
    && ((e.PickedUp? && e.number in s.dialling) || (e.NotReached? && e.number in s.dialling))
    && IsCall(s, s.dialling[e.number]) && s.call.value.rtp.Some? && s.call.value.rtp.value.number == n
  }

  predicate WasMissed(events: seq<Event>, relayed: bool, n: nat) {
    events != [] && (WasMissed(Front(events), relayed, n) || Misses(Run(Front(events), relayed), Last(events), n))
  }

  predicate WasDisplaced(events: seq<Event>, relayed: bool, n: nat) {
    events != [] && (WasDisplaced(Front(events), relayed, n) || Displaces(Run(Front(events), relayed), Last(events), n))
  }

  lemma PlacedOutOfReach(s: State, id: string, rtp: Session, n: nat)
    ensures var t := Placed(s, id, rtp);
      && (t.lost[n] > 0 <==> s.lost[n] > 0 || (!IsCall(s, id) && rtp.number == n))
      && (t.dropped[n] > 0 <==> s.dropped[n] > 0 || (IsCall(s, id) && Held(s.call)[n] > 0))
  {
  }

  lemma ConnectsOutOfReach(s: State, m: nat, answered: seq<nat>, media: Option<Media>, relayed: bool, n: nat)
    requires m in s.dialling
    ensures var t := Connects(s, m, answered, media, relayed);
      && (t.lost[n] > 0 <==> s.lost[n] > 0 || (!IsCall(s, s.dialling[m]) && m == n))
      && (t.dropped[n] > 0 <==> s.dropped[n] > 0 || (IsCall(s, s.dialling[m]) && Held(s.call)[n] > 0))
  {
    var left, rtp := s.(dialling := s.dialling - {m}), PickedUpWith(m, answered, media, relayed);
    PlacedOutOfReach(left, s.dialling[m], rtp, n);
    var t := Placed(left, s.dialling[m], rtp);
    assert WithTimer(t, m, s.dialling[m]).lost == t.lost && WithTimer(t, m, s.dialling[m]).dropped == t.dropped;
  }

  lemma FailsOutOfReach(s: State, m: nat, n: nat)
    requires m in s.dialling
    ensures var t := Fails(s, m);
      && t.lost == s.lost
      && (t.dropped[n] > 0 <==> s.dropped[n] > 0 || (IsCall(s, s.dialling[m]) && Held(s.call)[n] > 0))
  {
  }

  lemma OthersInReach(s: State, e: Event, relayed: bool)
    requires !e.PickedUp? && !e.NotReached?
    ensures Next(s, e, relayed).lost == s.lost && Next(s, e, relayed).dropped == s.dropped
  {
    if e.Answer? && IsRinging(s) && Choose(s.call.value.offered).Some? {
      assert Next(s, e, relayed) == Accepted(s, Choose(s.call.value.offered).value, relayed);
    }
  }

  lemma NextOutOfReach(s: State, e: Event, relayed: bool, n: nat)
    ensures Next(s, e, relayed).lost[n] > 0 <==> s.lost[n] > 0 || Misses(s, e, n)
    ensures Next(s, e, relayed).dropped[n] > 0 <==> s.dropped[n] > 0 || Displaces(s, e, n)
  {
    if e.PickedUp? {
      if e.number in s.dialling {
        ConnectsOutOfReach(s, e.number, e.answered, e.media, relayed, n);
      }
    } else if e.NotReached? {
      if e.number in s.dialling {
        FailsOutOfReach(s, e.number, n);
      }
    } else {
      OthersInReach(s, e, relayed);
    }
  }

  lemma {:induction false} RunOutOfReach(events: seq<Event>, relayed: bool, n: nat)
    ensures Run(events, relayed).lost[n] > 0 <==> WasMissed(events, relayed, n)
    ensures Run(events, relayed).dropped[n] > 0 <==> WasDisplaced(events, relayed, n)
  {
    if events != [] {
      RunOutOfReach(Front(events), relayed, n);
      NextOutOfReach(Run(Front(events), relayed), Last(events), relayed, n);
    }
  }

  /** Over every run: a session is out of reach if and only if its attempt was picked up
      after its call had gone, or an attempt ended under the Call-ID of the call that held
      it. Every other one is held by the call, by its attempt or by one hangup, or has
      been closed, once. */
  lemma OutOfReachIff(events: seq<Event>, relayed: bool, n: nat)
    requires n < Run(events, relayed).made
    ensures var s := Run(events, relayed);
      && s.lost[n] == (if WasMissed(events, relayed, n) then 1 else 0)
      && s.dropped[n] == (if WasDisplaced(events, relayed, n) then 1 else 0)
      && (!WasMissed(events, relayed, n) && !WasDisplaced(events, relayed, n) <==>
            Held(s.call)[n] + (if n in s.dialling then 1 else 0) + s.closing[n] + s.closed[n] == 1)
  {
    RunOutOfReach(events, relayed, n);
    EachSessionSomewhereOnce(events, relayed, n);
  }

  /** A call placed and hung up while it rings; its attempt goes on. */
  predicate DialledAway(s: State, id: string) {
    && s.call.None? && s.made == 1 && 0 in s.dialling && s.dialling[0] == id
    && s.lost == multiset{} && s.dropped == multiset{}
  }

  lemma HungUpRinging(id: string, relayed: bool)
    ensures DialledAway(Run([Dial(id), Opens(id), HangUp], relayed), id)
  {
    var e1, e2, e3 := Dial(id), Opens(id), HangUp;
    RunSnoc([], e1, relayed);
    RunSnoc([e1], e2, relayed);
    RunSnoc([e1, e2], e3, relayed);
    assert [] + [e1] == [e1] && [e1] + [e2] == [e1, e2] && [e1, e2] + [e3] == [e1, e2, e3];
  }

  /** If it is picked up all the same, its session is lost, and the timer that starts for it
      is one that nobody will stop. */
  lemma MissedCall(id: string, relayed: bool)
    ensures var s := Run([Dial(id), Opens(id), HangUp] + [PickedUp(0, [PCMU], None)], relayed);
      s.lost[0] == 1 && 0 in s.stale && 0 in s.running
  {
    HungUpRinging(id, relayed);
    RunSnoc([Dial(id), Opens(id), HangUp], PickedUp(0, [PCMU], None), relayed);
  }

  /** If a call rings under the same Call-ID and is answered in the meantime, it is that
      call's session that nobody closes. */
  lemma DisplacedCall(id: string, relayed: bool)
    ensures Run([Dial(id), Opens(id), HangUp] + [Invite(id, [PCMU], None)] + [Answer] + [PickedUp(0, [PCMU], None)],
                relayed).dropped[1] == 1
  {
    var away := [Dial(id), Opens(id), HangUp];
    HungUpRinging(id, relayed);
    RunSnoc(away, Invite(id, [PCMU], None), relayed);
    RunSnoc(away + [Invite(id, [PCMU], None)], Answer, relayed);
    RunSnoc(away + [Invite(id, [PCMU], None)] + [Answer], PickedUp(0, [PCMU], None), relayed);
    DisplacedFrom(Run(away, relayed), id, relayed);
  }

  lemma DisplacedFrom(s: State, id: string, relayed: bool)
    requires DialledAway(s, id)
    ensures Connects(Answered(Invited(s, id, [PCMU], None, relayed), relayed), 0, [PCMU], None, relayed).dropped[1] == 1
  {
    assert Choose([PCMU]) == Some(PCMU);
    var t := Answered(Invited(s, id, [PCMU], None, relayed), relayed);
    assert Held(t.call) == multiset{1} && 0 in t.dialling && t.dialling[0] == id && IsCall(t, id);
    ConnectsDrops(t, 0, [PCMU], None, relayed);
  }

  lemma ConnectsDrops(s: State, m: nat, answered: seq<nat>, media: Option<Media>, relayed: bool)
    requires m in s.dialling && IsCall(s, s.dialling[m])
    ensures Connects(s, m, answered, media, relayed).dropped == s.dropped + Held(s.call)
  {
  }

  // -------------------------------------------------------- other calls' traffic

  /** A request naming another call leaves everything as it is; a re-INVITE changes at
      most where the audio of its call goes. */
  lemma OthersLeaveTheCall(s: State, id: string, offered: seq<nat>, media: Option<Media>, relayed: bool)
    requires s.call.Some?
    ensures s.call.value.id != id ==>
      && Next(s, Invite(id, offered, media), relayed) == s && InviteReply(s, id, offered) == 486
      && Next(s, ByeOrCancel(id), relayed) == s
    ensures var t := Next(s, Invite(id, offered, media), relayed);
      && t == s.(call := t.call) && t.call.Some?
      && t.call.value == s.call.value.(rtp := t.call.value.rtp)
      && Held(t.call) == Held(s.call)
    ensures s.call.value.status != Connected ==>
      Next(s, Invite(id, offered, media), relayed) == s && InviteReply(s, id, offered) == 486
  {
  }

  /** An incoming call is answered with a codec both sides speak, or not at all. */
  lemma AnsweredInCommon(s: State, relayed: bool)
    requires IsRinging(s)
    ensures var t := Answered(s, relayed); var offered := s.call.value.offered;
      && (t.call.None? <==> forall i :: 0 <= i < |offered| ==> !Supported(offered[i]))
      && (t.call.Some? ==> t.call.value.rtp.Some? && Supported(t.call.value.rtp.value.payload)
                           && t.call.value.rtp.value.payload in offered)
  {
    ChosenIsCommon(s.call.value.offered);
  }

  // ------------------------------------------------------- what is agreed

  /** What a call was rung with: the first INVITE to a free line says it. */
  datatype Invitation = Invitation(id: string, offered: seq<nat>, media: Option<Media>)

  function Invitations(events: seq<Event>, relayed: bool): Option<Invitation> {
    if events == [] then None
    else
      match Last(events)
      case Invite(id, offered, media) =>
        if Run(Front(events), relayed).call.None? then Some(Invitation(id, offered, media))
        else Invitations(Front(events), relayed)
      case _ => Invitations(Front(events), relayed)
  }

  /** The call of a line that was rung is the one that INVITE named, with what it offered. */
  predicate AsInvited(call: Option<Call>, invitation: Option<Invitation>) {
    call.Some? && (call.value.inbound || call.value.status == Ringing) ==>
      invitation == Some(Invitation(call.value.id, call.value.offered, call.value.media))
  }

  lemma NextAsInvited(s: State, e: Event, relayed: bool, invitation: Option<Invitation>)
    requires AsInvited(s.call, invitation)
    ensures !(e.Invite? && s.call.None?) ==> AsInvited(Next(s, e, relayed).call, invitation)
    ensures e.Invite? && s.call.None? ==>
      Next(s, e, relayed).call == Some(Call(e.id, true, Ringing, None, None, e.offered, e.media))
  {
  }

  lemma {:induction false} RunAsInvited(events: seq<Event>, relayed: bool)
    ensures AsInvited(Run(events, relayed).call, Invitations(events, relayed))
  {
    if events != [] {
      RunAsInvited(Front(events), relayed);
      NextAsInvited(Run(Front(events), relayed), Last(events), relayed, Invitations(Front(events), relayed));
    }
  }

  /** What two sides have agreed on: the codec, and where the far end wants its audio. */
  datatype Deal = Deal(codec: nat, media: Option<Media>)

  /** A call is answered with the codec chosen of those its INVITE offered, and with the address
      that named; a call picked up, with the codec chosen of those answered - or the one every
      session begins with - and with the address of that answer; and an address named later, in
      an offer that still holds the codec, takes the place of the one before. */
  function Agreed(s: State, d: Option<Deal>, e: Event, invitation: Option<Invitation>): Option<Deal> {
    match e
    case Answer =>
      if IsRinging(s) && invitation.Some? && Choose(invitation.value.offered).Some?
      then Some(Deal(Choose(invitation.value.offered).value, invitation.value.media)) else d
    case PickedUp(number, answered, media) =>
      if number in s.dialling && IsCall(s, s.dialling[number])
      then Some(Deal(if Choose(answered).Some? then Choose(answered).value else 0, media)) else d
    case Invite(id, offered, media) =>
      if s.call.None? then None
      else if IsCall(s, id) && d.Some? && media.Some? && (offered == [] || d.value.codec in offered)
      then Some(Deal(d.value.codec, media)) else d
    case Dial(_) => if s.call.None? then None else d
    case _ => d
  }

  function Deals(events: seq<Event>, relayed: bool): Option<Deal> {
    if events == [] then None
    else Agreed(Run(Front(events), relayed), Deals(Front(events), relayed), Last(events),
                Invitations(Front(events), relayed))
  }

  /** A call has a session once something is agreed, and that session is as agreed: with the
      codec, and with the address - except behind a relay, which is the address then. */
  predicate AsAgreed(call: Option<Call>, d: Option<Deal>, relayed: bool) {
    call.Some? ==>
      && (call.value.rtp.Some? <==> d.Some?) && (call.value.status == Connected <==> d.Some?)
      && (d.Some? ==> call.value.rtp.value.payload == d.value.codec
                      && call.value.rtp.value.remote == if relayed then None else d.value.media)
  }

  lemma AnswerAsAgreed(s: State, d: Option<Deal>, invitation: Option<Invitation>, relayed: bool)
    requires AsInvited(s.call, invitation) && AsAgreed(s.call, d, relayed) && Shaped(s.call)
    ensures AsAgreed(Next(s, Answer, relayed).call, Agreed(s, d, Answer, invitation), relayed)
  {
  }

  lemma InviteAsAgreed(s: State, d: Option<Deal>, e: Event, invitation: Option<Invitation>, relayed: bool)
    requires e.Invite? && AsAgreed(s.call, d, relayed)
    ensures AsAgreed(Next(s, e, relayed).call, Agreed(s, d, e, invitation), relayed)
  {
  }

  lemma PickUpAsAgreed(s: State, d: Option<Deal>, e: Event, invitation: Option<Invitation>, relayed: bool)
    requires e.PickedUp? && AsAgreed(s.call, d, relayed)
    ensures AsAgreed(Next(s, e, relayed).call, Agreed(s, d, e, invitation), relayed)
  {
  }

  lemma OthersAsAgreed(s: State, d: Option<Deal>, e: Event, invitation: Option<Invitation>, relayed: bool)
    requires !e.Invite? && !e.Answer? && !e.PickedUp? && AsAgreed(s.call, d, relayed)
    ensures AsAgreed(Next(s, e, relayed).call, Agreed(s, d, e, invitation), relayed)
  {
  }

  /** Over every run: what a line's call is spoken with, and where its audio goes, is what the
      two sides agreed on last. */
  lemma {:induction false} SpokenAsAgreed(events: seq<Event>, relayed: bool)
    ensures AsAgreed(Run(events, relayed).call, Deals(events, relayed), relayed)
  {
    if events != [] {
      var s, d, e := Run(Front(events), relayed), Deals(Front(events), relayed), Last(events);
      var invitation := Invitations(Front(events), relayed);
      SpokenAsAgreed(Front(events), relayed);
      RunAsInvited(Front(events), relayed);
      RunConserved(Front(events), relayed);
      match e
      case Answer => AnswerAsAgreed(s, d, invitation, relayed);
      case Invite(_, _, _) => InviteAsAgreed(s, d, e, invitation, relayed);
      case PickedUp(_, _, _) => PickUpAsAgreed(s, d, e, invitation, relayed);
      case _ => OthersAsAgreed(s, d, e, invitation, relayed);
    }
  }

  /** What an INVITE is told, in every run: 180 on a free line; 200 where it comes within the
      call that is up and still offers the codec that was agreed, or says nothing of codecs;
      488 where it does not offer that one any more; and 486 otherwise. */
  lemma InvitesAreTold(events: seq<Event>, relayed: bool, id: string, offered: seq<nat>)
    ensures var s, d := Run(events, relayed), Deals(events, relayed);
      InviteReply(s, id, offered)
      == if s.call.None? then 180
         else if s.call.value.id != id || d.None? then 486
         else if offered == [] || d.value.codec in offered then 200
         else 488
  {
    SpokenAsAgreed(events, relayed);
  }

  // ---------------------------------------------------------------- timers

  predicate OnCall(s: State, n: nat) {
    n in Timers(s.call)
  }

  /** Where a timer can be: not yet started, on the call and armed, being cancelled, or
      let go. */
  predicate TimerRight(s: State, n: nat) {
    && !(n in s.answering && n in s.dialling) && !(n in s.running && n in s.firing)
    && (n in s.answering || n in s.dialling ==>
          !OnCall(s, n) && n !in s.stale && n !in s.cancelling && n !in s.running && n !in s.firing)
    && (OnCall(s, n) ==> n !in s.stale && n !in s.cancelling && (n in s.running || n in s.firing))
    && (n in s.running ==> OnCall(s, n) || n in s.stale || n in s.cancelling)
    && (n in s.firing ==> OnCall(s, n) || n in s.stale)
    && (n >= s.made ==>
          n !in s.answering && n !in s.dialling && !OnCall(s, n) && n !in s.stale && n !in s.cancelling
          && n !in s.running && n !in s.firing)
  }

  lemma InvitedTimer(s: State, id: string, offered: seq<nat>, media: Option<Media>, relayed: bool, n: nat)
    requires TimerRight(s, n)
    ensures TimerRight(Invited(s, id, offered, media, relayed), n)
  {
    var t := Invited(s, id, offered, media, relayed);
    assert t == s.(call := t.call) && Timers(t.call) == Timers(s.call);
  }

  lemma AcceptedTimer(s: State, pt: nat, relayed: bool, n: nat)
    requires s.call.Some? && TimerRight(s, n)
    ensures TimerRight(Accepted(s, pt, relayed), n)
  {
    assert Timers(Accepted(s, pt, relayed).call) == Timers(s.call);
  }

  lemma FreedTimer(s: State, id: string, n: nat)
    requires TimerRight(s, n)
    ensures TimerRight(Dropped(s), n) && TimerRight(EndedByPeer(s, id), n) && TimerRight(Taken(s), n)
  {
  }

  lemma AnsweredTimer(s: State, relayed: bool, n: nat)
    requires TimerRight(s, n)
    ensures TimerRight(Answered(s, relayed), n)
  {
    FreedTimer(s, "", n);
    if IsRinging(s) && Choose(s.call.value.offered).Some? {
      AcceptedTimer(s, Choose(s.call.value.offered).value, relayed, n);
    }
  }

  lemma PlacedTimer(s: State, id: string, n: nat)
    requires TimerRight(s, n)
    ensures TimerRight(Dialled(s, id), n) && TimerRight(SessionOpened(s, id), n)
  {
  }

  lemma WithTimerRight(s: State, number: nat, id: string, n: nat)
    requires TimerRight(s, n)
    requires n == number ==>
      && n < s.made && n !in s.answering && n !in s.dialling && !OnCall(s, n)
      && n !in s.stale && n !in s.cancelling && n !in s.running && n !in s.firing
    ensures TimerRight(WithTimer(s, number, id), n)
  {
  }

  lemma SetTimerRight(s: State, number: nat, n: nat)
    requires TimerRight(s, n)
    ensures TimerRight(SetTimer(s, number), n)
  {
    if number in s.answering {
      WithTimerRight(s.(answering := s.answering - {number}), number, s.answering[number], n);
    }
  }

  lemma ConnectsTimer(s: State, number: nat, answered: seq<nat>, media: Option<Media>, relayed: bool, n: nat)
    requires TimerRight(s, n)
    ensures TimerRight(Connects(s, number, answered, media, relayed), n)
  {
    if number in s.dialling {
      var id := s.dialling[number];
      var t := Placed(s.(dialling := s.dialling - {number}), id, PickedUpWith(number, answered, media, relayed));
      assert Timers(t.call) == Timers(s.call);
      WithTimerRight(t, number, id, n);
    }
  }

  lemma FailsTimer(s: State, number: nat, n: nat)
    requires TimerRight(s, n)
    ensures TimerRight(Fails(s, number), n)
  {
  }

  lemma ExpiredTimer(s: State, number: nat, n: nat)
    requires TimerRight(s, n)
    ensures TimerRight(Expired(s, number), n) && TimerRight(Stopped(s, number), n)
  {
  }

  lemma FiredTimer(s: State, number: nat, n: nat)
    requires TimerRight(s, n)
    ensures TimerRight(Fired(s, number), n)
  {
    if n != number {
      FreedTimer(s.(firing := s.firing - {number}), "", n);
    }
  }

  lemma NextTimer(s: State, e: Event, relayed: bool, n: nat)
    requires TimerRight(s, n)
    ensures TimerRight(Next(s, e, relayed), n)
  {
    match e
    case Invite(id, offered, media) => InvitedTimer(s, id, offered, media, relayed, n);
    case Answer => AnsweredTimer(s, relayed, n);
    case TimerSet(number) => SetTimerRight(s, number, n);
    case Decline => FreedTimer(s, "", n);
    case ByeOrCancel(id) => FreedTimer(s, id, n);
    case HangUp => FreedTimer(s, "", n);
    case TimerExpires(number) => ExpiredTimer(s, number, n);
    case TimerFires(number) => FiredTimer(s, number, n);
    case CancelTimer(number) => ExpiredTimer(s, number, n);
    case Close(number) =>
    case Dial(id) => PlacedTimer(s, id, n);
    case Opens(id) => PlacedTimer(s, id, n);
    case OpenFails(id) =>
    case PickedUp(number, answered, media) => ConnectsTimer(s, number, answered, media, relayed, n);
    case NotReached(number) => FailsTimer(s, number, n);
  }

  lemma {:induction false} RunTimer(events: seq<Event>, relayed: bool, n: nat)
    ensures TimerRight(Run(events, relayed), n)
  {
    if events != [] {
      RunTimer(Front(events), relayed, n);
      NextTimer(Run(Front(events), relayed), Last(events), relayed, n);
    }
  }

  /** Timer m is started for a call that is not there, or in the place of timer n. */
  predicate StartLetsGo(s: State, m: nat, id: string, n: nat) {
    if IsCall(s, id) then OnCall(s, n) else m == n
  }

  /** When an event lets a timer go, by what can be seen before it: the timer is started
      for a call that is gone; its call is cleared, or given another timer, without
      cancelling it; or it has expired by the time its call ends or it is cancelled. */
  predicate LetsGo(s: State, e: Event, n: nat) {
    match e
    case TimerSet(m) => m in s.answering && StartLetsGo(s, m, s.answering[m], n)
    case PickedUp(m, _, _) => m in s.dialling && StartLetsGo(s, m, s.dialling[m], n)
    case NotReached(m) => m in s.dialling && IsCall(s, s.dialling[m]) && OnCall(s, n)
    case Answer =>
      && IsRinging(s) && OnCall(s, n)
      && forall i :: 0 <= i < |s.call.value.offered| ==> !Supported(s.call.value.offered[i])
    case Decline => IsRinging(s) && OnCall(s, n)
    case ByeOrCancel(id) => IsCall(s, id) && OnCall(s, n) && n in s.firing
    case HangUp => OnCall(s, n) && n in s.firing
    case TimerFires(m) => m in s.firing && m != n && OnCall(s, n) && n in s.firing
    case TimerExpires(m) => m == n && n in s.running && n in s.cancelling
    case _ => false
  }

  lemma StartStaleIff(s: State, m: nat, id: string, n: nat)
    ensures n in WithTimer(s, m, id).stale <==> n in s.stale || StartLetsGo(s, m, id, n)
  {
  }

  lemma ConnectsStaleIff(s: State, m: nat, answered: seq<nat>, media: Option<Media>, relayed: bool, n: nat)
    requires m in s.dialling
    ensures n in Connects(s, m, answered, media, relayed).stale <==> n in s.stale || StartLetsGo(s, m, s.dialling[m], n)
  {
    var id := s.dialling[m];
    var t := Placed(s.(dialling := s.dialling - {m}), id, PickedUpWith(m, answered, media, relayed));
    assert t.stale == s.stale && Timers(t.call) == Timers(s.call) && (IsCall(t, id) <==> IsCall(s, id));
    StartStaleIff(t, m, id, n);
  }

  lemma AnsweredStaleIff(s: State, relayed: bool, n: nat)
    ensures n in Answered(s, relayed).stale <==> n in s.stale || LetsGo(s, Answer, n)
  {
    if IsRinging(s) {
      ChosenIsCommon(s.call.value.offered);
    }
  }

  lemma StaleIff(s: State, e: Event, relayed: bool, n: nat)
    ensures n in Next(s, e, relayed).stale <==> n in s.stale || LetsGo(s, e, n)
  {
    match e
    case Answer => AnsweredStaleIff(s, relayed, n);
    case TimerSet(m) =>
      if m in s.answering {
        StartStaleIff(s.(answering := s.answering - {m}), m, s.answering[m], n);
      }
    case PickedUp(m, answered, media) =>
      if m in s.dialling {
        ConnectsStaleIff(s, m, answered, media, relayed, n);
      }
    case _ =>
  }

  /** Whether any event of a run let a timer go. */
  predicate WasLetGo(events: seq<Event>, relayed: bool, n: nat) {
    events != [] && (WasLetGo(Front(events), relayed, n) || LetsGo(Run(Front(events), relayed), Last(events), n))
  }

  lemma {:induction false} StaleIffLetGo(events: seq<Event>, relayed: bool, n: nat)
    ensures n in Run(events, relayed).stale <==> WasLetGo(events, relayed, n)
  {
    if events != [] {
      StaleIffLetGo(Front(events), relayed, n);
      StaleIff(Run(Front(events), relayed), Last(events), relayed, n);
    }
  }

  /** In every interleaving: a timer that has expired ends the call it was set on if and
      only if no event let it go; one still running is on its call if and only if it was
      neither let go nor is being cancelled; and the timer on a call is always armed. */
  lemma TimerEndsItsCallIff(events: seq<Event>, relayed: bool, n: nat)
    ensures var s := Run(events, relayed);
      && (n in s.firing ==> (OnCall(s, n) <==> !WasLetGo(events, relayed, n)))
      && (n in s.running ==> (OnCall(s, n) <==> !WasLetGo(events, relayed, n) && n !in s.cancelling))
      && (OnCall(s, n) ==> n in s.running || n in s.firing)
  {
    RunTimer(events, relayed, n);
    StaleIffLetGo(events, relayed, n);
  }

  /** The line after a caller's INVITE, and after a timer has expired and hung up. */
  function RingsThenFires(s: State, number: nat, id: string, relayed: bool): State {
    Fired(Invited(s, id, [PCMU], None, relayed), number)
  }

  /** A caller who hangs up between the answer and the start of its timer leaves a timer
      that ends the next call instead. */
  lemma LateTimerEndsNextCall(s: State, number: nat, id: string, relayed: bool)
    requires number in s.answering && s.call.None?
    ensures var t := Next(Next(s, TimerSet(number), relayed), TimerExpires(number), relayed);
      && Next(t, Invite(id, [PCMU], None), relayed).call == Some(Offered(id, [PCMU], None))
      && RingsThenFires(t, number, id, relayed).call.None?
  {
  }

  /** So does a hangup here, if the timer expires before it is cancelled. */
  lemma HangUpGapEndsNextCall(s: State, number: nat, id: string, relayed: bool)
    requires OnCall(s, number) && number in s.running
    ensures var t := Next(Next(s, HangUp, relayed), TimerExpires(number), relayed);
      && Next(t, Invite(id, [PCMU], None), relayed).call == Some(Offered(id, [PCMU], None))
      && RingsThenFires(t, number, id, relayed).call.None?
  {
  }

  /** And a BYE that gets the lock before a timer that has expired. */
  lemma ByeGapEndsNextCall(s: State, number: nat, id: string, relayed: bool)
    requires OnCall(s, number) && number in s.running
    ensures var t := Next(Next(s, TimerExpires(number), relayed), ByeOrCancel(s.call.value.id), relayed);
      && Next(t, Invite(id, [PCMU], None), relayed).call == Some(Offered(id, [PCMU], None))
      && RingsThenFires(t, number, id, relayed).call.None?
  {
  }

  lemma AnsweredCall(id: string, relayed: bool)
    ensures var s := Run([Invite(id, [PCMU], None), Answer], relayed);
      && IsCall(s, id) && s.answering == map[0 := id]
  {
    var e1, e2 := Invite(id, [PCMU], None), Answer;
    RunSnoc([], e1, relayed);
    RunSnoc([e1], e2, relayed);
    assert [] + [e1] == [e1] && [e1] + [e2] == [e1, e2];
    assert Choose([PCMU]) == Some(PCMU);
    assert map[][0 := id] == map[0 := id];
  }

  /** A call and its answer, and then a BYE or the start of its timer, reach those states. */
  lemma AnswerCrossesBye(id: string, relayed: bool)
    ensures var s := Run([Invite(id, [PCMU], None), Answer] + [ByeOrCancel(id)], relayed);
            0 in s.answering && s.call.None?
    ensures var s := Run([Invite(id, [PCMU], None), Answer] + [TimerSet(0)], relayed);
            OnCall(s, 0) && 0 in s.running
  {
    AnsweredCall(id, relayed);
    RunSnoc([Invite(id, [PCMU], None), Answer], ByeOrCancel(id), relayed);
    RunSnoc([Invite(id, [PCMU], None), Answer], TimerSet(0), relayed);
  }

  /** A hangup, of ours or of a timer, takes the call with this timer on it. */
  predicate TakesTimer(s: State, e: Event, n: nat) {
    OnCall(s, n) && (e.HangUp? || (e.TimerFires? && e.number in s.firing))
  }

  predicate WasTaken(events: seq<Event>, relayed: bool, n: nat) {
    events != [] &&
    ((WasTaken(Front(events), relayed, n) && Last(events) != CancelTimer(n))
     || TakesTimer(Run(Front(events), relayed), Last(events), n))
  }

  lemma NextTaken(s: State, e: Event, relayed: bool, n: nat)
    ensures n in Next(s, e, relayed).cancelling
            <==> (n in s.cancelling && e != CancelTimer(n)) || TakesTimer(s, e, n)
    ensures e == CancelTimer(n) && n in s.cancelling ==> n !in Next(s, e, relayed).running
  {
  }

  /** Over every run: a timer is about to be cancelled from when a hangup takes its call until
      that hangup has cancelled it. */
  lemma {:induction false} CancellingIff(events: seq<Event>, relayed: bool, n: nat)
    ensures n in Run(events, relayed).cancelling <==> WasTaken(events, relayed, n)
  {
    if events != [] {
      CancellingIff(Front(events), relayed, n);
      NextTaken(Run(Front(events), relayed), Last(events), relayed, n);
    }
  }

  // ------------------------------------------------ a line that cannot be used

  predicate NobodyDials(s: State, id: string) {
    forall n :: n in s.dialling ==> s.dialling[n] != id
  }

  /** The line's call is one that was placed, and no attempt is running for it: nobody will
      ever say how it ends. */
  predicate Stuck(s: State) {
    && s.call.Some? && s.call.value.status == Dialing
    && s.call.value.id !in s.starting && NobodyDials(s, s.call.value.id)
  }

  predicate Frees(s: State, e: Event) {
    s.call.Some? && (e.HangUp? || e == ByeOrCancel(s.call.value.id) || (e.TimerFires? && e.number in s.firing))
  }

  /** The session of the line's call could not be opened, and its worker is gone. */
  predicate Abandons(s: State, e: Event) {
    e.OpenFails? && IsCall(s, e.id) && s.call.value.status == Dialing && NobodyDials(s, e.id)
  }

  lemma OpenedIsDialled(s: State, id: string)
    requires s.made !in s.dialling
    ensures Stuck(SessionOpened(s, id)) <==> Stuck(s)
  {
    var t := SessionOpened(s, id);
    if id in s.starting {
      assert t.dialling[s.made] == id;
      assert forall n :: n in s.dialling ==> n in t.dialling && t.dialling[n] == s.dialling[n];
    }
  }

  /** An attempt that ends was placing its own call and no other. */
  lemma OthersStillDial(s: State, t: State, number: nat, id: string)
    requires number in s.dialling && s.dialling[number] != id && t.dialling == s.dialling - {number}
    ensures NobodyDials(t, id) <==> NobodyDials(s, id)
  {
    assert forall n :: n in s.dialling && n != number ==> n in t.dialling && t.dialling[n] == s.dialling[n];
  }

  lemma ConnectsStuck(s: State, number: nat, answered: seq<nat>, media: Option<Media>, relayed: bool)
    ensures Stuck(Connects(s, number, answered, media, relayed)) <==> Stuck(s)
  {
    if number in s.dialling && s.call.Some? && s.dialling[number] != s.call.value.id {
      OthersStillDial(s, Connects(s, number, answered, media, relayed), number, s.call.value.id);
    }
  }

  lemma FailsStuck(s: State, number: nat)
    ensures Stuck(Fails(s, number)) <==> Stuck(s)
  {
    if number in s.dialling && s.call.Some? && s.dialling[number] != s.call.value.id {
      OthersStillDial(s, Fails(s, number), number, s.call.value.id);
    }
  }

  lemma TimersStuck(s: State, e: Event, relayed: bool)
    requires e.TimerSet? || e.TimerExpires? || e.TimerFires? || e.CancelTimer? || e.Close?
    ensures Stuck(Next(s, e, relayed)) <==> Stuck(s) && !Frees(s, e)
  {
  }

  lemma CallsStuck(s: State, e: Event, relayed: bool)
    requires e.Invite? || e.Answer? || e.Decline? || e.ByeOrCancel? || e.HangUp? || e.Dial?
    ensures Stuck(Next(s, e, relayed)) <==> Stuck(s) && !Frees(s, e)
  {
  }

  lemma NextStuckIff(s: State, e: Event, relayed: bool)
    requires s.made !in s.dialling
    ensures Stuck(Next(s, e, relayed)) <==> (Stuck(s) && !Frees(s, e)) || Abandons(s, e)
  {
    match e
    case Opens(id) => OpenedIsDialled(s, id);
    case OpenFails(_) =>
    case PickedUp(number, answered, media) => ConnectsStuck(s, number, answered, media, relayed);
    case NotReached(number) => FailsStuck(s, number);
    case TimerSet(_) => TimersStuck(s, e, relayed);
    case TimerExpires(_) => TimersStuck(s, e, relayed);
    case TimerFires(_) => TimersStuck(s, e, relayed);
    case CancelTimer(_) => TimersStuck(s, e, relayed);
    case Close(_) => TimersStuck(s, e, relayed);
    case _ => CallsStuck(s, e, relayed);
  }

  predicate WasAbandoned(events: seq<Event>, relayed: bool) {
    events != [] &&
    var s, e := Run(Front(events), relayed), Last(events);
    (WasAbandoned(Front(events), relayed) && !Frees(s, e)) || Abandons(s, e)
  }

  /** In every run a line is stuck with a call that nobody is placing any more if and only if
      the session of that call could not be opened, and neither a hangup here, nor a BYE or
      CANCEL naming the call, nor an old timer has come since. */
  lemma {:induction false} StuckIff(events: seq<Event>, relayed: bool)
    ensures Stuck(Run(events, relayed)) <==> WasAbandoned(events, relayed)
  {
    if events != [] {
      var s := Run(Front(events), relayed);
      StuckIff(Front(events), relayed);
      RunConserved(Front(events), relayed);
      FreshIsNowhere(s, s.made);
      NextStuckIff(s, Last(events), relayed);
    }
  }

  lemma OpenFailureSticks(id: string, relayed: bool)
    ensures Stuck(Run([Dial(id), OpenFails(id)], relayed))
  {
    RunSnoc([], Dial(id), relayed);
    RunSnoc([Dial(id)], OpenFails(id), relayed);
    assert [] + [Dial(id)] == [Dial(id)] && [Dial(id)] + [OpenFails(id)] == [Dial(id), OpenFails(id)];
  }

  // ------------------------------------------------------------- the object

  /** The call manager of one line. */
  class CallManager {
    const relayed: bool
    var call: Option<Call>
    var made: nat
    var answering: map<nat, string>
    var starting: set<string>
    var dialling: map<nat, string>
    var closing: multiset<nat>
    var closed: multiset<nat>
    var lost: multiset<nat>
    var dropped: multiset<nat>
    var answered: set<nat>
    var cancelling: set<nat>
    var running: set<nat>
    var firing: set<nat>
    var stale: set<nat>

    ghost function Value(): State
      reads this
    {
      State(call, made, answering, starting, dialling, closing, closed, lost, dropped, answered,
            cancelling, running, firing, stale)
    }

    constructor (relayed: bool)
      ensures this.relayed == relayed && Value() == IDLE
    {
      this.relayed := relayed;
      call, made, answering, starting, dialling := None, 0, map[], {}, map[];
      closing, closed, lost, dropped := multiset{}, multiset{}, multiset{}, multiset{};
      answered, cancelling, running, firing, stale := {}, {}, {}, {}, {};
    }

    method HandleInvite(id: string, body: string) returns (reply: nat)
      modifies this`call
      ensures Value() == Invited(old(Value()), id, ParseTypes(body), ParseAddress(body), relayed)
      ensures reply == InviteReply(old(Value()), id, ParseTypes(body))
    {
      var offered := ParseOfferedPayloadTypes(body);
      var media := ParseSdpMediaAddress(body);
      if call.Some? {
        var c := call.value;
        if c.id == id && c.status == Connected {
          reply := Reanswer(offered, media);
        } else {
          reply := 486;
        }
      } else {
        call := Some(Call(id, true, Ringing, None, None, offered, media));
        reply := 180;
      }
    }

    method Reanswer(offered: seq<nat>, media: Option<Media>) returns (reply: nat)
      requires call.Some? && call.value.status == Connected
      modifies this`call
      ensures Value() == Invited(old(Value()), old(call).value.id, offered, media, relayed)
      ensures reply == InviteReply(old(Value()), old(call).value.id, offered)
    {
      var c := call.value;
      if c.rtp.None? || (offered != [] && c.rtp.value.payload !in offered) {
        return 488;
      }
      if media.Some? && !relayed {
        call := Some(c.(rtp := Some(c.rtp.value.(remote := media))));
      }
      reply := 200;
    }

    /** The part of answering that runs under the lock. */
    method AnswerCall() returns (accepted: bool)
      modifies this`call, this`stale, this`answering, this`answered, this`made
      ensures Value() == Answered(old(Value()), relayed)
      ensures accepted == (IsRinging(old(Value())) && Choose(old(call).value.offered).Some?)
    {
      if call.None? || call.value.status != Ringing {
        return false;
      }
      var c := call.value;
      var codec := Choose(c.offered);
      if codec.None? {
        Release();
        return false;
      }
      var rtp := Session(made, codec.value, if relayed then None else c.media);
      answering := answering[made := c.id];
      answered := answered + {made};
      made := made + 1;
      call := Some(c.(status := Connected, rtp := Some(rtp)));
      accepted := true;
    }

    method Release()
      modifies this`call, this`stale
      ensures Value() == Dropped(old(Value()))
    {
      stale := stale + Timers(call);
      call := None;
    }

    method DeclineCall() returns (declined: bool)
      modifies this`call, this`stale
      ensures Value() == Declined(old(Value()))
      ensures declined == IsRinging(old(Value()))
    {
      if call.None? || call.value.status != Ringing {
        return false;
      }
      Release();
      declined := true;
    }

    /** What a BYE and a CANCEL do to the call they name. */
    method Finish()
      requires call.Some?
      modifies this`call, this`running, this`stale, this`closed
      ensures Value() == EndedByPeer(old(Value()), old(call).value.id)
    {
      var timers, sessions := Timers(call), Held(call);
      running := running - timers;
      stale := stale + timers * firing;
      closed := closed + sessions;
      call := None;
    }

    method HandleBye(id: string)
      modifies this`call, this`running, this`stale, this`closed
      ensures Value() == EndedByPeer(old(Value()), id)
    {
      if call.Some? && call.value.id == id {
        Finish();
      }
    }

    method HandleCancel(id: string)
      modifies this`call, this`running, this`stale, this`closed
      ensures Value() == EndedByPeer(old(Value()), id)
    {
      if call.Some? && call.value.id == id {
        Finish();
      }
    }

    /** A hangup takes the call first, and ends it afterwards. */
    method TakeCall()
      modifies this`call, this`cancelling, this`stale, this`closing
      ensures Value() == Taken(old(Value()))
    {
      if call.None? {
        return;
      }
      var timers, sessions := Timers(call), Held(call);
      cancelling := cancelling + timers;
      stale := stale + timers * firing;
      closing := closing + sessions;
      call := None;
    }

    method CloseTaken(number: nat)
      modifies this`closing, this`closed
      ensures Value() == Closed(old(Value()), number)
    {
      if number in closing {
        closing := closing - multiset{number};
        closed := closed + multiset{number};
      }
    }

    method CancelTaken(number: nat)
      modifies this`cancelling, this`running
      ensures Value() == Stopped(old(Value()), number)
    {
      if number in cancelling {
        cancelling := cancelling - {number};
        running := running - {number};
      }
    }

    /** A timer's thread: past its last look at whether it was cancelled, and then at
        the lock. */
    method Expire(number: nat)
      modifies this`running, this`firing, this`stale
      ensures Value() == Expired(old(Value()), number)
    {
      if number in running {
        running := running - {number};
        firing := firing + {number};
        if number in cancelling {
          stale := stale + {number};
        }
      }
    }

    method Fire(number: nat)
      modifies this`firing, this`call, this`cancelling, this`stale, this`closing
      ensures Value() == Fired(old(Value()), number)
    {
      if number in firing {
        firing := firing - {number};
        TakeCall();
      }
    }

    method DialOut(id: string) returns (started: bool)
      modifies this`call, this`starting
      ensures Value() == Dialled(old(Value()), id)
      ensures started == old(call).None?
    {
      if call.Some? {
        return false;
      }
      call := Some(Call(id, false, Dialing, None, None, [], None));
      starting := starting + {id};
      started := true;
    }

    /** The worker's first act, which may fail. */
    method OpenSession(id: string, opens: bool)
      requires id in starting
      modifies this`starting, this`dialling, this`made
      ensures opens ==> Value() == SessionOpened(old(Value()), id)
      ensures !opens ==> Value() == old(Value()).(starting := old(starting) - {id})
    {
      starting := starting - {id};
      if opens {
        dialling := dialling[made := id];
        made := made + 1;
      }
    }

    /** A timer is set on the call if it still is the call, and started either way. */
    method StartTimer(number: nat, id: string)
      modifies this`call, this`stale, this`running
      ensures Value() == WithTimer(old(Value()), number, id)
    {
      if call.Some? && call.value.id == id {
        stale := stale + Timers(call);
        call := Some(call.value.(timer := Some(number)));
      } else {
        stale := stale + {number};
      }
      running := running + {number};
    }

    method FinishAnswer(number: nat)
      requires number in answering
      modifies this`answering, this`call, this`stale, this`running
      ensures Value() == SetTimer(old(Value()), number)
    {
      var id := answering[number];
      answering := answering - {number};
      StartTimer(number, id);
    }

    method TakePlace(rtp: Session)
      requires call.Some?
      modifies this`call, this`dropped
      ensures Value() == Taking(old(Value()), rtp)
    {
      dropped := dropped + Held(call);
      call := Some(call.value.(status := Connected, rtp := Some(rtp)));
    }

    method LeaveDialling(number: nat) returns (id: string)
      requires number in dialling
      modifies this`dialling
      ensures id == old(dialling)[number]
      ensures Value() == old(Value()).(dialling := old(dialling) - {number})
    {
      id := dialling[number];
      dialling := dialling - {number};
    }

    method Place(id: string, rtp: Session)
      modifies this`call, this`dropped, this`lost
      ensures Value() == Placed(old(Value()), id, rtp)
    {
      if call.Some? && call.value.id == id {
        TakePlace(rtp);
      } else {
        lost := lost + multiset{rtp.number};
      }
    }

    method ConnectOutbound(number: nat, types: seq<nat>, media: Option<Media>)
      requires number in dialling
      modifies this`dialling, this`call, this`dropped, this`lost, this`stale, this`running
      ensures Value() == Connects(old(Value()), number, types, media, relayed)
    {
      var id := LeaveDialling(number);
      Place(id, PickedUpWith(number, types, media, relayed));
      StartTimer(number, id);
    }

    method EndAttempt(number: nat)
      requires number in dialling
      modifies this`dialling, this`closed, this`call, this`dropped, this`stale
      ensures Value() == Fails(old(Value()), number)
    {
      var id := LeaveDialling(number);
      closed := closed + multiset{number};
      if call.Some? && call.value.id == id {
        dropped := dropped + Held(call);
        Release();
      }
    }
  }
}
