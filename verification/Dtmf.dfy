/** Key presses as RTP events (RFC 4733; bridge/dtmf.py): reading one payload, and
    turning the packets of a press into one digit. */
module Dtmf {
  import opened Prelude
  import opened Bytes

  const EVENT_DIGITS := "0123456789*#ABCD"

  datatype Event = Event(digit: char, end: bool, duration: int)

  /** The payload of one event packet: the event, the flags with the end in the
      top bit and the volume below, the duration so far. */
  function EventPayload(event: Byte, end: bool, duration: int): (payload: seq<Byte>)
    requires 0 <= duration < 0x1_0000
    ensures |payload| == 4
  {
    [event, (if end then 0x80 else 0) + 10] + U16(duration)
  }

  function ParseEvent(payload: seq<Byte>): Option<Event> {
    if |payload| < 4 || payload[0] >= |EVENT_DIGITS| then None
    else Some(Event(EVENT_DIGITS[payload[0]], payload[1] >= 0x80, FromU16(payload[2..4])))
  }

  lemma EventRoundTrip(event: Byte, end: bool, duration: int)
    requires 0 <= duration < 0x1_0000
    ensures ParseEvent(EventPayload(event, end, duration))
            == if event < |EVENT_DIGITS| then Some(Event(EVENT_DIGITS[event], end, duration)) else None
  {
    assert EventPayload(event, end, duration)[2..4] == U16(duration);
    U16RoundTrip(duration);
  }

  /** What any payload is read as (section 2.3 of RFC 4733): four bytes at least, and one of the
      sixteen keys; the end is the top bit of the second byte, whatever the volume below it,
      and the duration the two bytes behind. */
  lemma PayloadReads(payload: seq<Byte>)
    ensures ParseEvent(payload).None? <==> |payload| < 4 || payload[0] >= 16
    ensures ParseEvent(payload).Some? ==>
      var event := ParseEvent(payload).value;
      && event.digit == EVENT_DIGITS[payload[0]] && (event.end <==> payload[1] / 0x80 == 1)
      && event.duration == Worth(payload[2..4])
  {
    if |payload| >= 4 {
      WorthOfTwo(payload[2], payload[3]);
      assert payload[2..4] == [payload[2], payload[3]];
    }
  }

  /** What the receiver remembers, and the digit it reports. */
  function Feed(reported: Option<int>, timestamp: int, payload: seq<Byte>): (Option<int>, Option<char>) {
    match ParseEvent(payload)
    case None => (reported, None)
    case Some(event) =>
      if reported == Some(timestamp) then (reported, None) else (Some(timestamp), Some(event.digit))
  }

  class DtmfEvents {
    var reported: Option<int>

    constructor ()
      ensures reported == None
    {
      reported := None;
    }

    method Hear(timestamp: int, payload: seq<Byte>) returns (digit: Option<char>)
      modifies this
      ensures (reported, digit) == Feed(old(reported), timestamp, payload)
    {
      var parsed := ParseEvent(payload);
      if parsed == None {
        return None;
      }
      if reported == Some(timestamp) {
        return None;
      }
      reported := Some(timestamp);
      return Some(parsed.value.digit);
    }
  }

  // ------------------------------------------------- one press, many roads

  /** A digit that was made out, and when. */
  datatype Report = Report(digit: char, at: real)

  const REPEAT_GUARD := 0.4

  /** Whether a digit counts behind those that counted: the same digit again, within the
      window, is taken for the same press. */
  predicate Counts(counted: seq<Report>, r: Report, window: real) {
    counted == [] || !(Last(counted).digit == r.digit && r.at - Last(counted).at < window)
  }

  /** The digits of a run that count. */
  function Counted(reports: seq<Report>, window: real): (r: seq<Report>)
    ensures |r| <= |reports|
  {
    if reports == [] then []
    else
      var before := Counted(Front(reports), window);
      if Counts(before, Last(reports), window) then before + [Last(reports)] else before
  }

  class DigitGuard {
    const window: real
    var digit: Option<char>
    var at: Option<real>
    ghost var reports: seq<Report>      // every digit that was ever brought here

    ghost predicate Valid()
      reads this
    {
      var counted := Counted(reports, window);
      && digit == (if counted == [] then None else Some(Last(counted).digit))
      && at == (if counted == [] then None else Some(Last(counted).at))
    }

    constructor (window: real)
      ensures Valid() && this.window == window && reports == []
    {
      this.window := window;
      digit, at, reports := None, None, [];
    }

    method Accepts(digit: char, now: real) returns (accepted: bool)
      requires Valid()
      modifies this
      ensures Valid() && reports == old(reports) + [Report(digit, now)]
      ensures Counted(reports, window)
           == Counted(old(reports), window) + if accepted then [Report(digit, now)] else []
    {
      ghost var before := reports;
      reports := reports + [Report(digit, now)];
      assert Front(reports) == before;
      if Some(digit) == this.digit && this.at.Some? && now - this.at.value < window {
        return false;
      }
      this.digit, this.at := Some(digit), Some(now);
      accepted := true;
    }
  }

  /** No digit comes again within the window of itself. */
  ghost predicate WellSpaced(reports: seq<Report>, window: real) {
    forall i :: 0 < i < |reports| && reports[i - 1].digit == reports[i].digit
      ==> reports[i].at - reports[i - 1].at >= window
  }

  /** Every digit of a run counts exactly when none comes again too soon. */
  lemma {:induction false} AllCountIff(reports: seq<Report>, window: real)
    ensures if WellSpaced(reports, window) then Counted(reports, window) == reports
            else |Counted(reports, window)| < |reports|
  {
    if reports != [] {
      var front, n := Front(reports), |reports| - 1;
      AllCountIff(front, window);
      assert forall i :: 0 <= i < n ==> front[i] == reports[i];
      var apart := n > 0 && reports[n - 1].digit == reports[n].digit ==> reports[n].at - reports[n - 1].at >= window;
      assert WellSpaced(reports, window) <==> WellSpaced(front, window) && apart;
    }
  }
}
