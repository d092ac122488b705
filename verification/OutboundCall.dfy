/** Placing one call (bridge/sip_call.py): the INVITE, its retries, and how the attempt
    ends - with the answers in any order and repeated, and with a hangup here, or the far
    end's BYE or CANCEL, at any moment. What the worker and a hangup do between two looks at
    the queue or the lock is split wherever the other can come in between. */
module OutboundCall {
  import opened Prelude
  import opened Text
  import opened Requests
  import opened Headers

  /** A response: its code, and the number and the method of the CSeq it names. The method
      is never looked at. */
  datatype Answer = Answer(code: string, cseq: Option<nat>, name: string)

  function StatusCode(text: string): string {
    var line := text[..LineEnd(text)];
    if IndexOf(line, ' ') == |line| then ""
    else
      var rest := line[IndexOf(line, ' ') + 1..];
      rest[..IndexOf(rest, ' ')]
  }

  function AnswerIn(text: string): Answer {
    Answer(StatusCode(text), AnsweredCseq(ParseHeaders(text)), AnsweredMethod(ParseHeaders(text)))
  }

  lemma StatusReads(status: string, after: string)
    requires Unbroken(status)
    ensures StatusCode("SIP/2.0 " + status + CRLF + after) == FirstWord(status)
  {
    var line := "SIP/2.0 " + status;
    UnbrokenJoin("SIP/2.0 ", status);
    LineEndAfter(line, after);
    assert (line + CRLF + after)[..|line|] == line;
    IndexOfIs(line, ' ', 7);
    assert line[8..] == status;
  }

  lemma MessageStarts(start: string, lines: seq<string>, body: string)
    ensures exists after :: MessageText([start] + lines, body) == start + CRLF + after
  {
    var rest := lines + [LengthLine(|body|), "", body];
    Regroup([start], lines, [LengthLine(|body|), "", body]);
    JoinCons(start, rest);
  }

  /** What the far end answers to a request with CSeq n is heard with the code it was
      given, as an answer to n - whichever method that request had. */
  lemma AnswerIsHeard(uri: string, q: Request, headers: seq<string>, offer: string,
                      status: string, toTag: string, extra: seq<string>, body: string)
    requires Unbroken(uri) && Printable(q) && forall i :: 0 <= i < |headers| ==> Neutral(headers[i])
    requires Unbroken(status) && Clean(toTag) && forall i :: 0 <= i < |extra| ==> Neutral(extra[i])
    ensures AnswerIn(ResponseText(status, ParseHeaders(RequestText(uri, q, headers, offer)), toTag, extra, body))
         == Answer(FirstWord(status), Some(q.cseq), q.name)
  {
    AnswerNamesRequest(uri, q, headers, offer, status, toTag, extra, body);
    var f := ParseHeaders(RequestText(uri, q, headers, offer));
    var lines := ResponseLines(f, toTag, extra);
    MessageStarts("SIP/2.0 " + status, lines, body);
    var after :| MessageText(["SIP/2.0 " + status] + lines, body) == "SIP/2.0 " + status + CRLF + after;
    StatusReads(status, after);
  }

  /** Branches are numbered in the order they are made up. */
  datatype Sent = Invite(cseq: nat, branch: nat) | Ack(cseq: nat, branch: nat) | Cancel(cseq: nat, branch: nat) | Bye

  datatype Told = ToldConnected | ToldFailed

  /** Where the worker is: about to send an INVITE, waiting for responses, between the next
      CSeq and its branch, acknowledged and about to look for the call, past the deadline
      and about to send the CANCEL, about to leave the line, or done. */
  datatype Phase = Sending | Calling | Bumping | Answered | Quitting | Leaving | Connected | Failed

  /** Where the hangup is that took the call, if one did: about to read the branch, about to
      read the CSeq and send, about to send a BYE, or done. */
  datatype Hangup = NoHangup | Withdrawing | WithdrawingWith(branch: nat) | Ending | HungUp

  /** `held`: this is still the call of its line. */
  datatype State = State(cseq: nat, branch: nat, drawn: nat, held: bool, phase: Phase, hangup: Hangup,
                         sent: seq<Sent>, told: seq<Told>)

  datatype Event =
    | Received(answer: Answer)
    | Rebranch
    | InviteSent
    | Placed
    | TimedOut
    | GaveUp
    | Left
    | Taken
    | BranchRead
    | HangupSent
    | PeerEnds

  function Start(held: bool): State {
    State(1, 0, 1, held, Sending, NoHangup, [], [])
  }

  predicate Relevant(s: State, a: Answer) {
    && (a.cseq.Some? ==> a.cseq.value == s.cseq)
    && a.code != "100" && a.code != "180" && a.code != "183"
  }

  predicate IsChallenge(a: Answer) {
    a.code == "401" || a.code == "407"
  }

  predicate IsRefusal(a: Answer) {
    a.code != "" && (a.code[0] == '4' || a.code[0] == '5' || a.code[0] == '6')
  }

  function Acknowledged(s: State, phase: Phase): State {
    s.(drawn := s.drawn + 1, phase := phase, sent := s.sent + [Ack(s.cseq, s.drawn)])
  }

  function Over(s: State): State {
    s.(phase := Leaving, told := s.told + [ToldFailed])
  }

  function Hear(s: State, a: Answer): State {
    if !Relevant(s, a) then s
    else if IsChallenge(a) then s.(cseq := s.cseq + 1, phase := Bumping)
    else if a.code == "200" then Acknowledged(s, Answered)
    else if IsRefusal(a) then Over(Acknowledged(s, Leaving))
    else s
  }

  /** What the worker does next. */
  function Works(s: State, e: Event): State {
    match e
    case Received(a) => if s.phase == Calling then Hear(s, a) else s
    case Rebranch => if s.phase == Bumping then s.(branch := s.drawn, drawn := s.drawn + 1, phase := Sending) else s
    case InviteSent =>
      if s.phase == Sending then s.(phase := Calling, sent := s.sent + [Invite(s.cseq, s.branch)]) else s
    case Placed => if s.phase == Answered then s.(phase := Connected, told := s.told + [ToldConnected]) else s
    case TimedOut => if s.phase != Calling then s else if s.held then s.(phase := Quitting) else Over(s)
    case GaveUp => if s.phase == Quitting then Over(s.(sent := s.sent + [Cancel(s.cseq, s.branch)])) else s
    case Left => if s.phase == Leaving then s.(phase := Failed, held := false) else s
    case _ => s
  }

  /** What a hangup here, and the far end, do meanwhile. */
  function Meanwhile(s: State, e: Event): State {
    match e
    case Taken =>
      if s.held then s.(held := false, hangup := if s.phase == Connected then Ending else Withdrawing) else s
    case BranchRead => if s.hangup.Withdrawing? then s.(hangup := WithdrawingWith(s.branch)) else s
    case HangupSent =>
      match s.hangup {
        case WithdrawingWith(branch) => s.(hangup := HungUp, sent := s.sent + [Cancel(s.cseq, branch)])
        case Ending => s.(hangup := HungUp, sent := s.sent + [Bye])
        case _ => s
      }
    case PeerEnds => s.(held := false)
    case _ => s
  }

  predicate IsOthers(e: Event) {
    e.Taken? || e.BranchRead? || e.HangupSent? || e.PeerEnds?
  }

  predicate AreOthers(events: seq<Event>) {
    forall i :: 0 <= i < |events| ==> IsOthers(events[i])
  }

  function Next(s: State, e: Event): State {
    if IsOthers(e) then Meanwhile(s, e) else Works(s, e)
  }

  function Run(s: State, events: seq<Event>): State {
    if events == [] then s else Next(Run(s, Front(events)), Last(events))
  }

  lemma RunSnoc(s: State, events: seq<Event>, e: Event)
    ensures Run(s, events + [e]) == Next(Run(s, events), e)
  {
    assert Front(events + [e]) == events;
  }

  lemma {:induction false} RunAppend(s: State, a: seq<Event>, b: seq<Event>)
    ensures Run(s, a + b) == Run(Run(s, a), b)
  {
    if b == [] {
      assert a + b == a;
    } else {
      RunAppend(s, a, Front(b));
      assert a + b == (a + Front(b)) + [Last(b)];
      RunSnoc(s, a + Front(b), Last(b));
    }
  }

  // ------------------------------------------------------------- the object

  /** The responses a run has taken off the queue. */
  function Heard(events: seq<Event>): seq<Answer> {
    if events == [] then []
    else Heard(Front(events)) + if Last(events).Received? then [Last(events).answer] else []
  }

  lemma {:induction false} HeardAppend(a: seq<Event>, b: seq<Event>)
    ensures Heard(a + b) == Heard(a) + Heard(b)
  {
    if b == [] {
      assert a + b == a;
    } else {
      HeardAppend(a, Front(b));
      assert a + b == (a + Front(b)) + [Last(b)];
      assert Front(a + b) == a + Front(b);
    }
  }

  lemma {:induction false} OthersHearNothing(events: seq<Event>)
    requires AreOthers(events)
    ensures Heard(events) == []
  {
    if events != [] {
      assert events[|events| - 1] == Last(events);
      OthersHearNothing(Front(events));
    }
  }

  lemma HeardSnoc(events: seq<Event>, e: Event)
    ensures Heard(events + [e]) == Heard(events) + if e.Received? then [e.answer] else []
  {
    assert Front(events + [e]) == events;
  }

  /** Others leave the worker where it is. */
  lemma {:induction false} OthersKeepPhase(s: State, events: seq<Event>)
    requires AreOthers(events)
    ensures Run(s, events).phase == s.phase
  {
    if events != [] {
      assert events[|events| - 1] == Last(events);
      OthersKeepPhase(s, Front(events));
    }
  }

  /** What others do in each of three gaps between the worker's steps. */
  predicate InThreeGaps(others: seq<seq<Event>>) {
    |others| == 3 && AreOthers(others[0]) && AreOthers(others[1]) && AreOthers(others[2])
  }

  /** A response that ends the waiting, and how. */
  predicate IsEnd(phase: Phase, a: Answer) {
    (phase == Answered && a.code == "200") || (phase == Leaving && IsRefusal(a))
  }

  predicate Decides(a: Answer) {
    a.code == "200" || IsRefusal(a)
  }

  class Attempt {
    var cseq: nat
    var branch: nat
    var drawn: nat
    var held: bool
    var phase: Phase
    var hangup: Hangup
    var sent: seq<Sent>
    var told: seq<Told>
    ghost const heldFirst: bool
    ghost var trace: seq<Event>      // everything that has happened to this attempt

    ghost function Value(): State
      reads this
    {
      State(cseq, branch, drawn, held, phase, hangup, sent, told)
    }

    ghost predicate Valid()
      reads this
    {
      Value() == Run(Start(heldFirst), trace)
    }

    constructor (held: bool)
      ensures Valid() && trace == [] && heldFirst == held && phase == Sending
    {
      this.cseq, this.branch, this.drawn, this.held := 1, 0, 1, held;
      this.phase, this.hangup, this.sent, this.told := Sending, NoHangup, [], [];
      this.heldFirst, this.trace := held, [];
    }

    /** Says that the state has moved on as this event moves it. */
    ghost method Note(before: State, e: Event)
      requires before == Run(Start(heldFirst), trace) && Value() == Next(before, e)
      modifies this`trace
      ensures Valid() && trace == old(trace) + [e]
    {
      RunSnoc(Start(heldFirst), trace, e);
      trace := trace + [e];
    }

    method Acknowledge(outcome: Phase)
      modifies this`sent, this`drawn, this`phase
      ensures Value() == Acknowledged(old(Value()), outcome)
    {
      sent := sent + [Ack(cseq, drawn)];
      drawn := drawn + 1;
      phase := outcome;
    }

    method Fail()
      modifies this`phase, this`told
      ensures Value() == Over(old(Value()))
    {
      phase := Leaving;
      told := told + [ToldFailed];
    }

    /** One response off the queue. */
    method Hears(a: Answer)
      requires Valid() && phase == Calling
      modifies this
      ensures Valid() && trace == old(trace) + [Received(a)]
      ensures phase == Calling || phase == Bumping || IsEnd(phase, a)
    {
      ghost var before := Value();
      if (a.cseq.Some? && a.cseq.value != cseq) || a.code == "100" || a.code == "180" || a.code == "183" {
      } else if a.code == "401" || a.code == "407" {
        cseq := cseq + 1;
        phase := Bumping;
      } else if a.code == "200" {
        Acknowledge(Answered);
      } else if a.code != "" && (a.code[0] == '4' || a.code[0] == '5' || a.code[0] == '6') {
        Acknowledge(Leaving);
        Fail();
      }
      Note(before, Received(a));
    }

    /** The rest of a retry, and the first INVITE. */
    method TakeBranch()
      requires Valid() && phase == Bumping
      modifies this
      ensures Valid() && trace == old(trace) + [Rebranch] && phase == Sending
    {
      ghost var before := Value();
      branch := drawn;
      drawn := drawn + 1;
      phase := Sending;
      Note(before, Rebranch);
    }

    method SendInvite()
      requires Valid() && phase == Sending
      modifies this
      ensures Valid() && trace == old(trace) + [InviteSent] && phase == Calling
    {
      ghost var before := Value();
      sent := sent + [Invite(cseq, branch)];
      phase := Calling;
      Note(before, InviteSent);
    }

    method Connect()
      requires Valid() && phase == Answered
      modifies this
      ensures Valid() && trace == old(trace) + [Placed] && phase == Connected
    {
      ghost var before := Value();
      phase := Connected;
      told := told + [ToldConnected];
      Note(before, Placed);
    }

    method TimeOut()
      requires Valid() && phase == Calling
      modifies this
      ensures Valid() && trace == old(trace) + [TimedOut] && (phase == Quitting || phase == Leaving)
    {
      ghost var before := Value();
      if held {
        phase := Quitting;
      } else {
        Fail();
      }
      Note(before, TimedOut);
    }

    method GiveUp()
      requires Valid() && phase == Quitting
      modifies this
      ensures Valid() && trace == old(trace) + [GaveUp] && phase == Leaving
    {
      ghost var before := Value();
      sent := sent + [Cancel(cseq, branch)];
      Fail();
      Note(before, GaveUp);
    }

    method Leave()
      requires Valid() && phase == Leaving
      modifies this
      ensures Valid() && trace == old(trace) + [Left] && phase == Failed
    {
      ghost var before := Value();
      held := false;
      phase := Failed;
      Note(before, Left);
    }

    /** A hangup: the call is taken under the lock, and what is said to the far end comes
        later, out of what the attempt then holds. */
    method Take()
      requires Valid()
      modifies this
      ensures Valid() && trace == old(trace) + [Taken]
    {
      ghost var before := Value();
      if held {
        held := false;
        hangup := if phase == Connected then Ending else Withdrawing;
      }
      Note(before, Taken);
    }

    method ReadBranch()
      requires Valid()
      modifies this
      ensures Valid() && trace == old(trace) + [BranchRead]
    {
      ghost var before := Value();
      if hangup.Withdrawing? {
        hangup := WithdrawingWith(branch);
      }
      Note(before, BranchRead);
    }

    method SendHangup()
      requires Valid()
      modifies this
      ensures Valid() && trace == old(trace) + [HangupSent]
    {
      ghost var before := Value();
      if hangup.WithdrawingWith? {
        sent := sent + [Cancel(cseq, hangup.branch)];
        hangup := HungUp;
      } else if hangup == Ending {
        sent := sent + [Bye];
        hangup := HungUp;
      }
      Note(before, HangupSent);
    }

    /** A BYE or a CANCEL of the far end takes the call off its line. */
    method EndByPeer()
      requires Valid()
      modifies this
      ensures Valid() && trace == old(trace) + [PeerEnds]
    {
      ghost var before := Value();
      held := false;
      Note(before, PeerEnds);
    }

    /** What others do while the worker is not looking. */
    method Others(events: seq<Event>)
      requires Valid() && AreOthers(events)
      modifies this
      ensures Valid() && phase == old(phase)
      ensures trace == old(trace) + events && Heard(trace) == old(Heard(trace))
    {
      ghost var first, start := trace, Value();
      for i := 0 to |events|
        invariant Valid() && trace == first + events[..i]
      {
        assert events[..i + 1] == events[..i] + [events[i]];
        match events[i]
        case Taken => Take();
        case BranchRead => ReadBranch();
        case HangupSent => SendHangup();
        case PeerEnds => EndByPeer();
      }
      assert events[..|events|] == events;
      RunAppend(Start(heldFirst), first, events);
      OthersKeepPhase(start, events);
      HeardAppend(first, events);
      OthersHearNothing(events);
    }

    /** The first INVITE. */
    method Begin(others: seq<Event>)
      requires Valid() && phase == Sending && AreOthers(others)
      modifies this
      ensures Valid() && phase == Calling && Heard(trace) == old(Heard(trace))
    {
      Others(others);
      HeardSnoc(trace, InviteSent);
      SendInvite();
    }

    /** A response, and where it is a challenge the INVITE that answers it, with whatever
        others do before each step. */
    method Turn(a: Answer, others: seq<seq<Event>>)
      requires Valid() && phase == Calling
      requires InThreeGaps(others)
      modifies this
      ensures Valid() && Heard(trace) == old(Heard(trace)) + [a]
      ensures phase == Calling || IsEnd(phase, a)
    {
      Others(others[0]);
      HeardSnoc(trace, Received(a));
      Hears(a);
      if phase == Bumping {
        Others(others[1]);
        HeardSnoc(trace, Rebranch);
        TakeBranch();
        Others(others[2]);
        HeardSnoc(trace, InviteSent);
        SendInvite();
      }
    }

    /** What comes behind the loop: an answered call is looked for, an unanswered one is
        withdrawn if it is still the line's, and a failed one leaves the line. */
    method Finish(others: seq<seq<Event>>)
      requires Valid() && (phase == Calling || phase == Answered || phase == Leaving)
      requires InThreeGaps(others)
      modifies this
      ensures Valid() && Heard(trace) == old(Heard(trace)) && (phase == Connected || phase == Failed)
    {
      Others(others[0]);
      if phase == Answered {
        HeardSnoc(trace, Placed);
        Connect();
        return;
      }
      if phase == Calling {
        HeardSnoc(trace, TimedOut);
        TimeOut();
        Others(others[1]);
        if phase == Quitting {
          HeardSnoc(trace, GaveUp);
          GiveUp();
        }
      }
      Others(others[2]);
      HeardSnoc(trace, Left);
      Leave();
    }

    /** Follows the call to its end: the responses that come before the deadline, and what
        others do in the meantime. */
    method Follow(answers: seq<Answer>, others: nat -> seq<seq<Event>>) returns (heard: nat)
      requires Valid() && phase == Sending
      requires forall n: nat :: InThreeGaps(others(n))
      modifies this
      ensures Valid() && (phase == Connected || phase == Failed)
      ensures heard <= |answers| && Heard(trace) == old(Heard(trace)) + answers[..heard]
      ensures heard < |answers| ==> heard > 0 && Decides(answers[heard - 1])
    {
      ghost var before := Heard(trace);
      Begin(others(0)[0]);
      heard := 0;
      while heard < |answers| && phase == Calling
        invariant Valid() && heard <= |answers| && Heard(trace) == before + answers[..heard]
        invariant phase == Calling || (heard > 0 && IsEnd(phase, answers[heard - 1]))
      {
        assert answers[..heard + 1] == answers[..heard] + [answers[heard]];
        Turn(answers[heard], others(heard + 1));
        heard := heard + 1;
      }
      Finish(others(|answers| + 1));
    }
  }

  // ------------------------------------------------------- over every run

  function Invites(sent: seq<Sent>): (r: seq<Sent>)
    ensures forall i :: 0 <= i < |r| ==> r[i].Invite?
  {
    if sent == [] then []
    else Invites(Front(sent)) + if Last(sent).Invite? then [Last(sent)] else []
  }

  lemma InvitesSnoc(sent: seq<Sent>, m: Sent)
    ensures Invites(sent + [m]) == Invites(sent) + if m.Invite? then [m] else []
  {
    assert Front(sent + [m]) == sent;
  }

  /** What may be sent behind what: INVITEs count up from 1, each with a branch of its
      own, and an ACK carries the number of the newest. */
  predicate Fits(before: seq<Sent>, m: Sent) {
    var invites := Invites(before);
    match m
    case Invite(cseq, branch) =>
      cseq == |invites| + 1 && forall i :: 0 <= i < |invites| ==> invites[i].branch != branch
    case Ack(cseq, _) => invites != [] && Last(invites).cseq == cseq
    case _ => true
  }

  predicate Orderly(sent: seq<Sent>) {
    sent == [] || (Orderly(Front(sent)) && Fits(Front(sent), Last(sent)))
  }

  lemma OrderlySnoc(sent: seq<Sent>, m: Sent)
    ensures Orderly(sent + [m]) <==> Orderly(sent) && Fits(sent, m)
  {
    assert Front(sent + [m]) == sent;
  }

  /** A retry under way: the number is the next one's, whose INVITE is still to be sent. */
  predicate Between(s: State) {
    s.phase == Bumping || s.phase == Sending
  }

  /** The attempt's number and branch are those of the newest INVITE, or of the next. */
  predicate Linked(s: State) {
    var invites := Invites(s.sent);
    && s.cseq >= 1 && s.branch < s.drawn && (forall i :: 0 <= i < |invites| ==> invites[i].branch < s.drawn)
    && |invites| == (if Between(s) then s.cseq - 1 else s.cseq)
    && (!Between(s) ==> Last(invites) == Invite(s.cseq, s.branch))
    && (s.phase == Bumping ==> invites != [] && Last(invites) == Invite(s.cseq - 1, s.branch))
    && (s.phase == Sending ==> forall i :: 0 <= i < |invites| ==> invites[i].branch != s.branch)
  }

  predicate Proper(s: State) {
    Orderly(s.sent) && Linked(s)
  }

  /** A message that is no INVITE changes nothing about which INVITE is the newest. */
  lemma OtherSent(s: State, m: Sent, drawn: nat, phase: Phase)
    requires Proper(s) && !m.Invite? && Fits(s.sent, m) && drawn >= s.drawn
    requires phase == s.phase || (!Between(s) && phase != Bumping && phase != Sending)
    ensures Proper(s.(sent := s.sent + [m], drawn := drawn, phase := phase))
  {
    OrderlySnoc(s.sent, m);
    InvitesSnoc(s.sent, m);
  }

  lemma InviteIsProper(s: State)
    requires Proper(s) && s.phase == Sending
    ensures Proper(Next(s, InviteSent))
  {
    OrderlySnoc(s.sent, Invite(s.cseq, s.branch));
    InvitesSnoc(s.sent, Invite(s.cseq, s.branch));
  }

  lemma HearIsProper(s: State, a: Answer)
    requires Proper(s) && s.phase == Calling
    ensures Proper(Hear(s, a))
  {
    if Relevant(s, a) && !IsChallenge(a) {
      OtherSent(s, Ack(s.cseq, s.drawn), s.drawn + 1, Answered);
      OtherSent(s, Ack(s.cseq, s.drawn), s.drawn + 1, Leaving);
    }
  }

  lemma MeanwhileIsProper(s: State, e: Event)
    requires Proper(s)
    ensures Proper(Meanwhile(s, e))
  {
    if e.HangupSent? && s.hangup.WithdrawingWith? {
      OtherSent(s, Cancel(s.cseq, s.hangup.branch), s.drawn, s.phase);
    } else if e.HangupSent? {
      OtherSent(s, Bye, s.drawn, s.phase);
    }
  }

  lemma NextIsProper(s: State, e: Event)
    requires Proper(s)
    ensures Proper(Next(s, e))
  {
    if IsOthers(e) {
      MeanwhileIsProper(s, e);
    } else if e.Received? && s.phase == Calling {
      HearIsProper(s, e.answer);
    } else if e.InviteSent? && s.phase == Sending {
      InviteIsProper(s);
    } else if e.GaveUp? && s.phase == Quitting {
      OtherSent(s, Cancel(s.cseq, s.branch), s.drawn, Leaving);
    }
  }

  lemma {:induction false} OrderlyCounts(sent: seq<Sent>)
    requires Orderly(sent)
    ensures forall i :: 0 <= i < |Invites(sent)| ==> Invites(sent)[i].cseq == i + 1
  {
    if sent != [] {
      OrderlyCounts(Front(sent));
    }
  }

  lemma {:induction false} RunIsProper(held: bool, events: seq<Event>)
    ensures Proper(Run(Start(held), events))
  {
    if events != [] {
      RunIsProper(held, Front(events));
      NextIsProper(Run(Start(held), Front(events)), Last(events));
    }
  }

  /** In every run - answers lost, repeated or out of order, and a hangup or the far end's
      BYE or CANCEL between any two steps - the INVITEs sent are numbered 1, 2, 3 and so on,
      each once, with a branch of its own, and an ACK carries the number of the newest. */
  lemma InvitesCountUp(held: bool, events: seq<Event>)
    ensures var s := Run(Start(held), events);
      Orderly(s.sent) && forall i :: 0 <= i < |Invites(s.sent)| ==> Invites(s.sent)[i].cseq == i + 1
  {
    RunIsProper(held, events);
    OrderlyCounts(Run(Start(held), events).sent);
  }

  // -------------------------------------------------------- what is withdrawn

  /** A CANCEL names the newest INVITE. */
  predicate Repeats(before: seq<Sent>, cseq: nat, branch: nat) {
    Invites(before) != [] && Last(Invites(before)) == Invite(cseq, branch)
  }

  predicate CancelsRepeat(sent: seq<Sent>) {
    sent == [] || (CancelsRepeat(Front(sent))
                   && (Last(sent).Cancel? ==> Repeats(Front(sent), Last(sent).cseq, Last(sent).branch)))
  }

  /** The newest INVITE has a CANCEL of its own behind it. */
  predicate Withdrawn(sent: seq<Sent>) {
    sent != [] && !Last(sent).Invite? &&
    (Withdrawn(Front(sent)) || (Last(sent).Cancel? && Repeats(Front(sent), Last(sent).cseq, Last(sent).branch)))
  }

  lemma WithdrawnSnoc(sent: seq<Sent>, m: Sent)
    ensures CancelsRepeat(sent + [m]) <==> CancelsRepeat(sent) && (m.Cancel? ==> Repeats(sent, m.cseq, m.branch))
    ensures Withdrawn(sent + [m])
            <==> !m.Invite? && (Withdrawn(sent) || (m.Cancel? && Repeats(sent, m.cseq, m.branch)))
  {
    assert Front(sent + [m]) == sent;
  }

  /** A hangup is about to send what it has read, and a retry has come in between: what it
      sends names no INVITE that is outstanding. */
  predicate Torn(s: State) {
    s.hangup.WithdrawingWith? && (Between(s) || s.hangup.branch != s.branch)
  }

  lemma RepeatsIff(s: State, branch: nat)
    requires Proper(s)
    ensures Repeats(s.sent, s.cseq, branch) <==> !Between(s) && branch == s.branch
  {
    OrderlyCounts(s.sent);
  }

  /** An event that withdraws the INVITE outstanding: the deadline's CANCEL, or that of a
      hangup which no retry has overtaken. */
  predicate Withdraws(s: State, e: Event) {
    (e.GaveUp? && s.phase == Quitting) || (e.HangupSent? && s.hangup.WithdrawingWith? && !Torn(s))
  }

  predicate SendsInvite(s: State, e: Event) {
    e.InviteSent? && s.phase == Sending
  }

  lemma HearWithdraws(s: State, a: Answer)
    requires s.phase == Calling
    ensures CancelsRepeat(Hear(s, a).sent) <==> CancelsRepeat(s.sent)
    ensures Withdrawn(Hear(s, a).sent) <==> Withdrawn(s.sent)
  {
    WithdrawnSnoc(s.sent, Ack(s.cseq, s.drawn));
  }

  lemma HangupWithdraws(s: State)
    requires Proper(s)
    ensures CancelsRepeat(Next(s, HangupSent).sent) <==> CancelsRepeat(s.sent) && !Torn(s)
    ensures Withdrawn(Next(s, HangupSent).sent) <==> Withdrawn(s.sent) || Withdraws(s, HangupSent)
  {
    if s.hangup.WithdrawingWith? {
      WithdrawnSnoc(s.sent, Cancel(s.cseq, s.hangup.branch));
      RepeatsIff(s, s.hangup.branch);
    } else {
      WithdrawnSnoc(s.sent, Bye);
    }
  }

  lemma NextWithdraws(s: State, e: Event)
    requires Proper(s)
    ensures CancelsRepeat(Next(s, e).sent) <==> CancelsRepeat(s.sent) && !(e.HangupSent? && Torn(s))
    ensures Withdrawn(Next(s, e).sent) <==> !SendsInvite(s, e) && (Withdrawn(s.sent) || Withdraws(s, e))
  {
    if e.Received? && s.phase == Calling {
      HearWithdraws(s, e.answer);
    } else if SendsInvite(s, e) {
      WithdrawnSnoc(s.sent, Invite(s.cseq, s.branch));
    } else if e.GaveUp? && s.phase == Quitting {
      WithdrawnSnoc(s.sent, Cancel(s.cseq, s.branch));
      RepeatsIff(s, s.branch);
    } else if e.HangupSent? {
      HangupWithdraws(s);
    }
  }

  /** Whether a retry ever came in between a hangup's reading and its sending. */
  predicate WasTorn(held: bool, events: seq<Event>) {
    events != [] &&
    (WasTorn(held, Front(events)) || (Last(events).HangupSent? && Torn(Run(Start(held), Front(events)))))
  }

  /** Whether the newest INVITE of a run was withdrawn after it had gone out. */
  predicate WasWithdrawn(held: bool, events: seq<Event>) {
    events != [] &&
    var s := Run(Start(held), Front(events));
    !SendsInvite(s, Last(events)) && (WasWithdrawn(held, Front(events)) || Withdraws(s, Last(events)))
  }

  /** Over every run: each CANCEL repeats number and branch of the newest INVITE before it
      if and only if no retry came in between a hangup's reading and its sending. */
  lemma {:induction false} CancelsRepeatIff(held: bool, events: seq<Event>)
    ensures CancelsRepeat(Run(Start(held), events).sent) <==> !WasTorn(held, events)
  {
    if events != [] {
      CancelsRepeatIff(held, Front(events));
      RunIsProper(held, Front(events));
      NextWithdraws(Run(Start(held), Front(events)), Last(events));
    }
  }

  /** Over every run: the newest INVITE is withdrawn if and only if, since it went out, the
      deadline passed with the call still the line's, or a hangup sent its CANCEL with no
      retry in between. */
  lemma {:induction false} WithdrawnIff(held: bool, events: seq<Event>)
    ensures Withdrawn(Run(Start(held), events).sent) <==> WasWithdrawn(held, events)
  {
    if events != [] {
      WithdrawnIff(held, Front(events));
      RunIsProper(held, Front(events));
      NextWithdraws(Run(Start(held), Front(events)), Last(events));
    }
  }

  // --------------------------------------------------- how an attempt ends

  function Acks(sent: seq<Sent>): nat {
    if sent == [] then 0 else Acks(Front(sent)) + if Last(sent).Ack? then 1 else 0
  }

  function Byes(sent: seq<Sent>): nat {
    if sent == [] then 0 else Byes(Front(sent)) + if Last(sent).Bye? then 1 else 0
  }

  function Cancels(sent: seq<Sent>): nat {
    if sent == [] then 0 else Cancels(Front(sent)) + if Last(sent).Cancel? then 1 else 0
  }

  lemma CountsSnoc(sent: seq<Sent>, m: Sent)
    ensures Acks(sent + [m]) == Acks(sent) + if m.Ack? then 1 else 0
    ensures Byes(sent + [m]) == Byes(sent) + if m.Bye? then 1 else 0
    ensures Cancels(sent + [m]) == Cancels(sent) + if m.Cancel? then 1 else 0
  {
    assert Front(sent + [m]) == sent;
  }

  /** Nothing is announced while the attempt runs, and then one thing is; what was answered
      is acknowledged once. */
  predicate Settled(s: State) {
    match s.phase
    case Answered => s.told == [] && Acks(s.sent) == 1
    case Connected => s.told == [ToldConnected] && Acks(s.sent) == 1
    case Leaving => s.told == [ToldFailed] && Acks(s.sent) <= 1
    case Failed => s.told == [ToldFailed] && Acks(s.sent) <= 1 && !s.held
    case _ => s.told == [] && Acks(s.sent) == 0
  }

  /** A response that is acknowledged. */
  predicate Ends(s: State, a: Answer) {
    Relevant(s, a) && !IsChallenge(a) && (a.code == "200" || IsRefusal(a))
  }

  predicate SendsBye(s: State, e: Event) {
    e.HangupSent? && s.hangup == Ending
  }

  predicate SendsCancel(s: State, e: Event) {
    (e.HangupSent? && s.hangup.WithdrawingWith?) || (e.GaveUp? && s.phase == Quitting)
  }

  predicate SendsAck(s: State, e: Event) {
    e.Received? && s.phase == Calling && Ends(s, e.answer)
  }

  /** So many ACKs, BYEs and CANCELs were added. */
  predicate Counted(before: seq<Sent>, after: seq<Sent>, acks: bool, byes: bool, cancels: bool) {
    && Acks(after) == Acks(before) + (if acks then 1 else 0)
    && Byes(after) == Byes(before) + (if byes then 1 else 0)
    && Cancels(after) == Cancels(before) + (if cancels then 1 else 0)
  }

  lemma HearCounts(s: State, a: Answer)
    ensures Counted(s.sent, Hear(s, a).sent, Ends(s, a), false, false)
  {
    CountsSnoc(s.sent, Ack(s.cseq, s.drawn));
  }

  lemma HangupCounts(s: State)
    ensures Counted(s.sent, Meanwhile(s, HangupSent).sent, false, SendsBye(s, HangupSent), SendsCancel(s, HangupSent))
  {
    if s.hangup.WithdrawingWith? {
      CountsSnoc(s.sent, Cancel(s.cseq, s.hangup.branch));
    } else {
      CountsSnoc(s.sent, Bye);
    }
  }

  /** What an event adds to the messages sent. */
  lemma NextCounts(s: State, e: Event)
    ensures Counted(s.sent, Next(s, e).sent, SendsAck(s, e), SendsBye(s, e), SendsCancel(s, e))
  {
    if e.Received? {
      HearCounts(s, e.answer);
    } else if e.InviteSent? {
      CountsSnoc(s.sent, Invite(s.cseq, s.branch));
    } else if e.GaveUp? {
      CountsSnoc(s.sent, Cancel(s.cseq, s.branch));
    } else if e.HangupSent? {
      HangupCounts(s);
    }
  }

  lemma NextIsSettled(s: State, e: Event)
    requires Settled(s)
    ensures Settled(Next(s, e))
  {
    NextCounts(s, e);
  }

  /** Every attempt that has ended was told of once, as connected or as failed; it
      acknowledged one answer at most, and exactly one if it connected; and one that has
      failed no longer holds its line. */
  lemma {:induction false} EndsOnce(held: bool, events: seq<Event>)
    ensures Settled(Run(Start(held), events))
  {
    if events != [] {
      EndsOnce(held, Front(events));
      NextIsSettled(Run(Start(held), Front(events)), Last(events));
    }
  }

  /** Whether a hangup found the attempt connected and still the line's call. */
  predicate TookConnected(held: bool, events: seq<Event>) {
    events != [] &&
    var s := Run(Start(held), Front(events));
    TookConnected(held, Front(events)) || (Last(events).Taken? && s.held && s.phase == Connected)
  }

  /** Where a hangup is, by whether it found the attempt connected. */
  predicate HangupRight(s: State, took: bool) {
    && (s.held ==> s.hangup == NoHangup)
    && (s.hangup == Ending ==> took)
    && (took ==> s.phase == Connected && (s.hangup == Ending || s.hangup == HungUp))
    && Byes(s.sent) == if took && s.hangup == HungUp then 1 else 0
  }

  lemma NextHangupRight(s: State, e: Event, took: bool)
    requires HangupRight(s, took)
    ensures HangupRight(Next(s, e), took || (e.Taken? && s.held && s.phase == Connected))
  {
    NextCounts(s, e);
  }

  lemma {:induction false} RunHangupRight(held: bool, events: seq<Event>)
    ensures HangupRight(Run(Start(held), events), TookConnected(held, events))
  {
    if events != [] {
      RunHangupRight(held, Front(events));
      NextHangupRight(Run(Start(held), Front(events)), Last(events), TookConnected(held, Front(events)));
    }
  }

  /** Over every run: no more than one BYE is sent, and one is if and only if a hangup found
      the attempt connected and still the line's call, and has got as far as sending it. */
  lemma EndedByByeIff(held: bool, events: seq<Event>)
    ensures var s := Run(Start(held), events);
      && Byes(s.sent) <= 1
      && (Byes(s.sent) == 1 <==> TookConnected(held, events) && s.hangup == HungUp)
      && (TookConnected(held, events) ==> s.hangup == HungUp || s.hangup == Ending)
  {
    RunHangupRight(held, events);
  }

  /** A call that is nobody's: no hangup is under way and the deadline is not being dealt
      with. */
  predicate Nobodys(s: State) {
    !s.held && (s.hangup == NoHangup || s.hangup == HungUp) && s.phase != Quitting
  }

  /** Nothing more is said to the far end of such a call than INVITEs and ACKs, whatever
      happens: after a BYE or a CANCEL from there, nothing is owed; after a hangup that has
      done its part, nothing more comes. */
  lemma {:induction false} NobodysCallIsLeft(s: State, events: seq<Event>)
    requires Nobodys(s)
    ensures Nobodys(Run(s, events))
    ensures Byes(Run(s, events).sent) == Byes(s.sent) && Cancels(Run(s, events).sent) == Cancels(s.sent)
  {
    if events != [] {
      NobodysCallIsLeft(s, Front(events));
      NextCounts(Run(s, Front(events)), Last(events));
    }
  }

  lemma NextHeld(s: State, e: Event)
    requires s.phase == Failed ==> !s.held
    ensures Next(s, e).held <==> s.held && !e.Taken? && !e.PeerEnds? && Next(s, e).phase != Failed
  {
  }

  /** Over every run: the call is the line's until a hangup takes it, the far end ends it, or
      the attempt fails and leaves - and no longer, and no less long. */
  lemma {:induction false} HeldIff(held: bool, events: seq<Event>)
    ensures var s := Run(Start(held), events);
      s.held <==> held && Taken !in events && PeerEnds !in events && s.phase != Failed
  {
    if events != [] {
      HeldIff(held, Front(events));
      NextHeld(Run(Start(held), Front(events)), Last(events));
      if Run(Start(held), Front(events)).phase == Failed {
        FailedStays(Run(Start(held), Front(events)), Last(events));
      }
      assert events == Front(events) + [Last(events)];
    }
  }

  lemma FailedStays(s: State, e: Event)
    requires s.phase == Failed
    ensures Next(s, e).phase == Failed
  {
  }

  /** A hangup, followed through: it ends what is connected with a BYE, and withdraws anything
      else with a CANCEL of the INVITE that is out. */
  lemma HangupEnds(s: State)
    requires s.held
    ensures var t := Run(s, [Taken, BranchRead] + [HangupSent]);
      && !t.held && t.hangup == HungUp && t.phase == s.phase
      && t.sent == s.sent + [if s.phase == Connected then Bye else Cancel(s.cseq, s.branch)]
  {
    RunTwo(s, Taken, BranchRead);
    RunSnoc(s, [Taken, BranchRead], HangupSent);
  }

  // -------------------------------------------------- which answer connects

  predicate Accepts(s: State, e: Event) {
    e.Received? && s.phase == Calling && Relevant(s, e.answer) && e.answer.code == "200"
  }

  /** The response a run has taken for the answer to its INVITE. */
  function Answering(held: bool, events: seq<Event>): Option<Answer> {
    if events == [] then None
    else if Accepts(Run(Start(held), Front(events)), Last(events)) then Some(Last(events).answer)
    else Answering(held, Front(events))
  }

  /** Over every run: an attempt is connected, or about to be, if and only if a 200 was taken
      for the answer to its INVITE, and it is announced once it is connected. */
  lemma {:induction false} ConnectedIff(held: bool, events: seq<Event>)
    ensures var s := Run(Start(held), events);
      && (s.phase == Answered || s.phase == Connected <==> Answering(held, events).Some?)
      && (s.told == [ToldConnected] <==> s.phase == Connected)
  {
    EndsOnce(held, events);
    if events != [] {
      ConnectedIff(held, Front(events));
    }
  }

  /** What a far end can answer at this point: the INVITE, or a CANCEL or a BYE that was sent
      to it. */
  predicate CanAnswer(s: State, name: string) {
    name == "INVITE" || (name == "CANCEL" && Cancels(s.sent) > 0) || (name == "BYE" && Byes(s.sent) > 0)
  }

  predicate Honest(held: bool, events: seq<Event>) {
    events == [] ||
    (Honest(held, Front(events)) &&
     (Last(events).Received? ==> CanAnswer(Run(Start(held), Front(events)), Last(events).answer.name)))
  }

  /** Where a CANCEL or a BYE can have come from. */
  predicate Accounted(s: State) {
    && (s.held ==> s.hangup == NoHangup)
    && (s.hangup == Ending || Byes(s.sent) > 0 ==> s.phase == Connected)
    && (Cancels(s.sent) > 0 ==> s.hangup == HungUp || s.phase == Leaving || s.phase == Failed)
  }

  lemma NextAccounted(s: State, e: Event)
    requires Accounted(s)
    ensures Accounted(Next(s, e))
    ensures s.hangup == HungUp ==> Next(s, e).hangup == HungUp
  {
    NextCounts(s, e);
  }

  lemma {:induction false} RunAccounted(held: bool, events: seq<Event>)
    ensures Accounted(Run(Start(held), events))
  {
    if events != [] {
      RunAccounted(held, Front(events));
      NextAccounted(Run(Start(held), Front(events)), Last(events));
    }
  }

  /** The 200 to the CANCEL of a hangup, while the attempt still waits for an answer. */
  predicate AnswersHangup(s: State, e: Event) {
    Accepts(s, e) && e.answer.name == "CANCEL" && s.hangup == HungUp
  }

  predicate WasMisheard(held: bool, events: seq<Event>) {
    events != [] &&
    (WasMisheard(held, Front(events)) || AnswersHangup(Run(Start(held), Front(events)), Last(events)))
  }

  /** What is so of an attempt that took the wrong 200 for its answer, and of no other. */
  predicate MisheardRight(answering: Option<Answer>, misheard: bool, hangup: Hangup, took: bool) {
    && (answering.Some? ==> (answering.value.name == "INVITE" <==> !misheard))
    && (misheard ==> answering.Some? && answering.value.name == "CANCEL" && hangup == HungUp && !took)
  }

  lemma AcceptsRight(s: State, e: Event, took: bool)
    requires Accounted(s) && Accepts(s, e) && CanAnswer(s, e.answer.name)
    requires took ==> s.phase == Connected
    ensures MisheardRight(Some(e.answer), AnswersHangup(s, e), Next(s, e).hangup, took)
  {
  }

  lemma NotAnswered(held: bool, events: seq<Event>)
    requires Run(Start(held), events).phase == Calling
    ensures Answering(held, events).None?
  {
    ConnectedIff(held, events);
  }

  /** Over every run with a far end that answers only what it was sent: the 200 an attempt
      has taken for the answer to its INVITE answers the INVITE if and only if no 200 to the
      CANCEL of a hangup came while it still waited. Where one did, no hangup finds the
      call any more, and so no BYE ends what was announced as connected. */
  lemma {:induction false} MisheardIff(held: bool, events: seq<Event>)
    requires Honest(held, events)
    ensures MisheardRight(Answering(held, events), WasMisheard(held, events),
                          Run(Start(held), events).hangup, TookConnected(held, events))
    ensures WasMisheard(held, events) ==> Byes(Run(Start(held), events).sent) == 0
  {
    RunHangupRight(held, events);
    if events != [] {
      var s, e := Run(Start(held), Front(events)), Last(events);
      MisheardIff(held, Front(events));
      RunAccounted(held, Front(events));
      NextAccounted(s, e);
      RunHangupRight(held, Front(events));
      if Accepts(s, e) {
        NotAnswered(held, Front(events));
        AcceptsRight(s, e, TookConnected(held, Front(events)));
      }
    }
  }

  // ----------------------------------------------------- when an attempt fails

  lemma CodeBegins(c: nat)
    requires 100 <= c < 1000
    ensures |Decimal(c)| == 3 && Decimal(c)[0] == Digit(c / 100)
  {
    assert Decimal(c) == Decimal(c / 10) + [Digit(c % 10)];
    assert Decimal(c / 10) == Decimal(c / 100) + [Digit(c / 10 % 10)];
    assert Decimal(c / 100) == [Digit(c / 100)];
  }

  /** The code of a response, as a number. */
  lemma CodesDiffer(c: nat, d: nat)
    ensures Decimal(c) == Decimal(d) <==> c == d
  {
    DecimalValue(c);
    DecimalValue(d);
  }

  lemma Provisional()
    ensures Decimal(100) == "100" && Decimal(180) == "180" && Decimal(183) == "183"
  {
    assert Decimal(1) == "1";
    assert Decimal(10) == Decimal(1) + ['0'] && Decimal(18) == Decimal(1) + ['8'];
    assert Decimal(100) == Decimal(10) + ['0'] && Decimal(180) == Decimal(18) + ['0'];
    assert Decimal(183) == Decimal(18) + ['3'];
  }

  lemma Final()
    ensures Decimal(200) == "200" && Decimal(401) == "401" && Decimal(407) == "407"
  {
    assert Decimal(2) == "2" && Decimal(4) == "4";
    assert Decimal(20) == Decimal(2) + ['0'] && Decimal(40) == Decimal(4) + ['0'];
    assert Decimal(200) == Decimal(20) + ['0'] && Decimal(401) == Decimal(40) + ['1'];
    assert Decimal(407) == Decimal(40) + ['7'];
  }

  lemma NamedCodes(c: nat)
    ensures Decimal(c) == "100" <==> c == 100
    ensures Decimal(c) == "180" <==> c == 180
    ensures Decimal(c) == "183" <==> c == 183
    ensures Decimal(c) == "200" <==> c == 200
    ensures Decimal(c) == "401" <==> c == 401
    ensures Decimal(c) == "407" <==> c == 407
  {
    Provisional();
    Final();
    CodesDiffer(c, 100);
    CodesDiffer(c, 180);
    CodesDiffer(c, 183);
    CodesDiffer(c, 200);
    CodesDiffer(c, 401);
    CodesDiffer(c, 407);
  }

  /** A response to the newest INVITE, or one that does not say to which. */
  predicate Concerns(s: State, a: Answer) {
    a.cseq.None? || a.cseq.value == s.cseq
  }

  /** What a waiting attempt does on a response, by the number of its code. 401 and 407 lead to
      the next INVITE; 200 is acknowledged, and connects; every other code from 400 to 699 is
      acknowledged once and ends the attempt, which is told of at once; nothing else moves it. */
  lemma CodeDecides(s: State, a: Answer, c: nat)
    requires s.phase == Calling && 100 <= c < 1000 && a.code == Decimal(c)
    ensures var t := Next(s, Received(a));
      if !Concerns(s, a) then t == s
      else if c == 401 || c == 407 then
        t == s.(cseq := s.cseq + 1, phase := Bumping)
      else if c == 200 then
        t == s.(drawn := s.drawn + 1, phase := Answered, sent := s.sent + [Ack(s.cseq, s.drawn)])
      else if 400 <= c < 700 then
        t == s.(drawn := s.drawn + 1, phase := Leaving, sent := s.sent + [Ack(s.cseq, s.drawn)],
                told := s.told + [ToldFailed])
      else t == s
  {
    NamedCodes(c);
    CodeBegins(c);
  }

  /** From the words of the far end to the end of the attempt: "486 Busy Here", or any other
      status with such a number, given to the newest INVITE. */
  lemma RefusalIsHeard(s: State, uri: string, q: Request, headers: seq<string>, offer: string, c: nat, reason: string,
                       toTag: string, extra: seq<string>, body: string)
    requires s.phase == Calling && q.cseq == s.cseq && 400 <= c < 700 && c != 401 && c != 407
    requires Unbroken(uri) && Printable(q) && forall i :: 0 <= i < |headers| ==> Neutral(headers[i])
    requires Unbroken(reason) && Clean(toTag) && forall i :: 0 <= i < |extra| ==> Neutral(extra[i])
    ensures var status := Decimal(c) + " " + reason;
            var asked := ParseHeaders(RequestText(uri, q, headers, offer));
            var a := AnswerIn(ResponseText(status, asked, toTag, extra, body));
            var t := Next(s, Received(a));
      && a == Answer(Decimal(c), Some(s.cseq), q.name)
      && t.phase == Leaving && t.told == s.told + [ToldFailed] && t.sent == s.sent + [Ack(s.cseq, s.drawn)]
  {
    var status := Decimal(c) + " " + reason;
    StatusFits(c, reason);
    AnswerIsHeard(uri, q, headers, offer, status, toTag, extra, body);
    CodeDecides(s, Answer(Decimal(c), Some(s.cseq), q.name), c);
  }

  lemma StatusFits(c: nat, reason: string)
    requires Unbroken(reason)
    ensures Unbroken(Decimal(c) + " " + reason) && FirstWord(Decimal(c) + " " + reason) == Decimal(c)
  {
    CseqReads(c, reason);
    DecimalIsUnbroken(c);
    UnbrokenJoin(Decimal(c), " ");
    UnbrokenJoin(Decimal(c) + " ", reason);
  }

  lemma DecimalIsUnbroken(n: nat)
    ensures Unbroken(Decimal(n)) && Last(Decimal(n)) != '\r'
  {
    var s := Decimal(n);
    forall i | 0 <= i < |s| ensures s[i] != '\r' {
      assert IsDigit(s[i]);
    }
  }

  /** A response that refuses the call, by its first digit. */
  predicate Refuses(s: State, e: Event) {
    && e.Received? && s.phase == Calling && Concerns(s, e.answer)
    && e.answer.code != "" && '4' <= e.answer.code[0] <= '6' && e.answer.code != "401" && e.answer.code != "407"
  }

  /** The deadline comes when nobody waits for the answer any more, or the last CANCEL has
      gone out. */
  predicate RunsOut(s: State, e: Event) {
    (e.TimedOut? && s.phase == Calling && !s.held) || (e.GaveUp? && s.phase == Quitting)
  }

  predicate WasGivenUp(held: bool, events: seq<Event>) {
    events != [] &&
    var s, e := Run(Start(held), Front(events)), Last(events);
    WasGivenUp(held, Front(events)) || Refuses(s, e) || RunsOut(s, e)
  }

  lemma NextFails(s: State, e: Event)
    ensures IsOver(Next(s, e)) <==> IsOver(s) || Refuses(s, e) || RunsOut(s, e)
  {
  }

  predicate IsOver(s: State) {
    s.phase == Leaving || s.phase == Failed
  }

  /** Over every run: an attempt has failed, and is told to have, if and only if a refusal was
      heard while it waited, or its deadline ran out. */
  lemma {:induction false} FailedIff(held: bool, events: seq<Event>)
    ensures var s := Run(Start(held), events);
      && (IsOver(s) <==> WasGivenUp(held, events))
      && (s.told == [ToldFailed] <==> WasGivenUp(held, events))
  {
    EndsOnce(held, events);
    if events != [] {
      FailedIff(held, Front(events));
      NextFails(Run(Start(held), Front(events)), Last(events));
    }
  }

  /** The deadline, followed through: an attempt that is still the line's call withdraws its
      INVITE, one that is not sends nothing more, and either way it is told to have failed and
      leaves the line. */
  lemma DeadlineEnds(s: State)
    requires s.phase == Calling
    ensures var t := Run(s, if s.held then [TimedOut, GaveUp, Left] else [TimedOut, Left]);
      && t.phase == Failed && !t.held && t.told == s.told + [ToldFailed]
      && t.sent == s.sent + if s.held then [Cancel(s.cseq, s.branch)] else []
  {
    if s.held {
      assert [TimedOut, GaveUp] + [Left] == [TimedOut, GaveUp, Left];
      RunTwo(s, TimedOut, GaveUp);
      RunSnoc(s, [TimedOut, GaveUp], Left);
    } else {
      RunTwo(s, TimedOut, Left);
      assert s.sent + [] == s.sent;
    }
  }

  // ---------------------------------------------------- repeated answers

  /** An answer that has had its effect, and names its CSeq, never has another. */
  predicate Spent(s: State, a: Answer) {
    (s.phase != Calling && !Between(s)) || (a.cseq.Some? && a.cseq.value < s.cseq)
  }

  lemma {:induction false} StaysSpent(s: State, a: Answer, events: seq<Event>)
    requires Spent(s, a)
    ensures Spent(Run(s, events), a)
  {
    if events != [] {
      StaysSpent(s, a, Front(events));
    }
  }

  /** Repeating an answer that named its CSeq, at any later moment, changes nothing about
      the rest of the run: each challenge is answered once. */
  lemma RepeatsAreHarmless(s: State, a: Answer, between: seq<Event>, rest: seq<Event>)
    requires a.cseq.Some? && Next(s, Received(a)) != s
    ensures Run(s, [Received(a)] + between + [Received(a)] + rest) == Run(s, [Received(a)] + between + rest)
  {
    var first := [Received(a)] + between;
    RunSnoc(s, [], Received(a));
    assert [] + [Received(a)] == [Received(a)];
    RunAppend(s, [Received(a)], between);
    StaysSpent(Next(s, Received(a)), a, between);
    RunSnoc(s, first, Received(a));
    RunAppend(s, first + [Received(a)], rest);
    RunAppend(s, first, rest);
  }

  /** Another INVITE is made out only for a challenge, and one that names a number names the
      newest. */
  lemma RetryAnswersNewest(s: State, e: Event)
    requires Next(s, e).cseq > s.cseq
    ensures e.Received? && IsChallenge(e.answer) && s.phase == Calling && Next(s, e).cseq == s.cseq + 1
    ensures e.answer.cseq.Some? ==> e.answer.cseq.value == s.cseq
  {
  }

  /** A challenge taken off the queue again, once the INVITE that answers it has gone out, is
      answered once exactly when it names a number. */
  lemma RepeatedChallenge(s: State, a: Answer)
    requires s.phase == Calling && Relevant(s, a) && IsChallenge(a)
    ensures var t := Next(Next(Next(s, Received(a)), Rebranch), InviteSent);
      && t.phase == Calling && t.cseq == s.cseq + 1
      && (Next(t, Received(a)) == t <==> a.cseq.Some?)
      && (a.cseq.None? ==> Next(t, Received(a)).cseq == s.cseq + 2)
  {
  }

  // ------------------------------------------------------------- the inputs

  /** An attempt that rings, and a hangup that has sent its CANCEL. */
  const HUNG_UP: seq<Event> := [InviteSent, Taken, BranchRead, HangupSent]

  lemma RunTwo(s: State, a: Event, b: Event)
    ensures Run(s, [a, b]) == Next(Next(s, a), b)
  {
    RunSnoc(s, [], a);
    RunSnoc(s, [a], b);
    assert [] + [a] == [a] && [a] + [b] == [a, b];
  }

  lemma RunFour(s: State, a: Event, b: Event, c: Event, d: Event)
    ensures Run(s, [a, b, c, d]) == Next(Next(Next(Next(s, a), b), c), d)
  {
    assert [a, b] + [c, d] == [a, b, c, d];
    RunAppend(s, [a, b], [c, d]);
    RunTwo(s, a, b);
    RunTwo(Run(s, [a, b]), c, d);
  }

  lemma HungUpRinging()
    ensures Run(Start(true), HUNG_UP)
         == State(1, 0, 1, false, Calling, HungUp, [Invite(1, 0), Cancel(1, 0)], [])
  {
    RunFour(Start(true), InviteSent, Taken, BranchRead, HangupSent);
  }

  const CHALLENGE: Event := Received(Answer("401", Some(1), "INVITE"))

  /** A challenge that crosses the hangup is answered with another INVITE, and nothing
      withdraws that one: the far end goes on ringing. */
  lemma RingsOn()
    ensures var s := Run(Start(true), HUNG_UP + [CHALLENGE, Rebranch, InviteSent, TimedOut]);
      && s.sent == [Invite(1, 0), Cancel(1, 0)] + [Invite(2, 1)] && s.told == [ToldFailed]
      && !Withdrawn(s.sent)
  {
    HungUpRinging();
    RunAppend(Start(true), HUNG_UP, [CHALLENGE, Rebranch, InviteSent, TimedOut]);
    RunFour(Run(Start(true), HUNG_UP), CHALLENGE, Rebranch, InviteSent, TimedOut);
    WithdrawnSnoc([Invite(1, 0), Cancel(1, 0)], Invite(2, 1));
  }

  /** A hangup that comes between the next number and its branch. */
  const TORN: seq<Event> := [InviteSent, CHALLENGE, Taken, BranchRead]

  lemma TornRinging()
    ensures Run(Start(true), TORN)
         == State(2, 0, 1, false, Bumping, WithdrawingWith(0), [Invite(1, 0)], [])
  {
    RunFour(Start(true), InviteSent, CHALLENGE, Taken, BranchRead);
  }

  lemma TornSent()
    ensures Run(Start(true), TORN + [HangupSent, Rebranch])
         == State(2, 1, 2, false, Sending, HungUp, [Invite(1, 0), Cancel(2, 0)], [])
  {
    TornRinging();
    RunAppend(Start(true), TORN, [HangupSent, Rebranch]);
    RunTwo(Run(Start(true), TORN), HangupSent, Rebranch);
  }

  /** It sends a CANCEL of the new number and the old branch, which no INVITE ever had, and
      the next INVITE goes out behind it. */
  lemma TornCancel()
    ensures Run(Start(true), TORN + [HangupSent, Rebranch] + [InviteSent, TimedOut]).sent
         == [Invite(1, 0), Cancel(2, 0)] + [Invite(2, 1)]
  {
    TornSent();
    RunAppend(Start(true), TORN + [HangupSent, Rebranch], [InviteSent, TimedOut]);
    RunTwo(Run(Start(true), TORN + [HangupSent, Rebranch]), InviteSent, TimedOut);
  }

  /** After a hangup, a 200 with the number of the INVITE is taken for its answer - the one
      that crosses the hangup, and just so the one that answers the hangup's own CANCEL. */
  lemma TakenForAnswer(name: string)
    ensures Run(Start(true), HUNG_UP + [Received(Answer("200", Some(1), name)), Placed])
         == State(1, 0, 2, false, Connected, HungUp, [Invite(1, 0), Cancel(1, 0)] + [Ack(1, 1)], [ToldConnected])
  {
    HungUpRinging();
    RunAppend(Start(true), HUNG_UP, [Received(Answer("200", Some(1), name)), Placed]);
    RunTwo(Run(Start(true), HUNG_UP), Received(Answer("200", Some(1), name)), Placed);
  }

  lemma NoByeYet()
    ensures Byes([Invite(1, 0), Cancel(1, 0)] + [Ack(1, 1)]) == 0
  {
    CountsSnoc([], Invite(1, 0));
    CountsSnoc([Invite(1, 0)], Cancel(1, 0));
    CountsSnoc([Invite(1, 0), Cancel(1, 0)], Ack(1, 1));
    assert [] + [Invite(1, 0)] == [Invite(1, 0)] && [Invite(1, 0)] + [Cancel(1, 0)] == [Invite(1, 0), Cancel(1, 0)];
  }

  /** It is acknowledged and announced as connected, and no BYE follows, whatever comes: a far
      end whose answer crossed the hangup stays up. */
  lemma AnsweredAfterHangup(name: string, events: seq<Event>)
    ensures var s := Run(Start(true), HUNG_UP + [Received(Answer("200", Some(1), name)), Placed]);
      && s.sent == [Invite(1, 0), Cancel(1, 0)] + [Ack(1, 1)] && s.told == [ToldConnected]
      && Byes(Run(s, events).sent) == 0
  {
    TakenForAnswer(name);
    NobodysCallIsLeft(Run(Start(true), HUNG_UP + [Received(Answer("200", Some(1), name)), Placed]), events);
    NoByeYet();
  }
}
