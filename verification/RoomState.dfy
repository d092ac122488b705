/** Who is in a room's call (bridge/room_state.py), from the updates the signaling
    server sends: snapshots that replace what is known, and changes on top. */
module RoomState {
  import opened Prelude

  /** The flags of an entry as they arrive: a number, something that reads as one,
      or something that does not. */
  datatype Raw = Reads(value: int) | Unreadable

  datatype Entry = Entry(sessionId: string, inCall: Option<Raw>)

  datatype Update = Update(users: Option<seq<Entry>>, changed: seq<Entry>)

  function AsFlags(raw: Option<Raw>): int {
    if raw.Some? && raw.value.Reads? then raw.value.value else 0
  }

  /** A snapshot: the last word on each session it names. */
  function Snapshot(users: seq<Entry>): map<string, int> {
    if users == [] then map[]
    else if Last(users).sessionId == "" then Snapshot(Front(users))
    else Snapshot(Front(users))[Last(users).sessionId := AsFlags(Last(users).inCall)]
  }

  /** Changes on top of what is known; one without the field changes nothing. */
  function Changed(flags: map<string, int>, changes: seq<Entry>): map<string, int> {
    if changes == [] then flags
    else if Last(changes).sessionId == "" || Last(changes).inCall == None then Changed(flags, Front(changes))
    else Changed(flags, Front(changes))[Last(changes).sessionId := AsFlags(Last(changes).inCall)]
  }

  function Updated(flags: Option<map<string, int>>, u: Update): map<string, int> {
    var known := if u.users.Some? then Snapshot(u.users.value) else if flags.Some? then flags.value else map[];
    Changed(known, u.changed)
  }

  predicate InCall(flags: map<string, int>, s: string) {
    s in flags && flags[s] % 2 == 1
  }

  function Members(flags: map<string, int>): set<string> {
    set s | s in flags && InCall(flags, s)
  }

  datatype Moves = Moves(entered: set<string>, left: set<string>)

  function Moved(before: Option<map<string, int>>, after: map<string, int>): Moves {
    if before == None then Moves({}, {})
    else Moves(set s | s in after && InCall(after, s) && !InCall(before.value, s),
               set s | s in before.value && InCall(before.value, s) && !InCall(after, s))
  }

  class RoomCallState {
    var flags: Option<map<string, int>>

    constructor ()
      ensures flags == None
    {
      flags := None;
    }

    method Apply(u: Update) returns (moves: Moves)
      modifies this
      ensures flags == Some(Updated(old(flags), u))
      ensures moves == Moved(old(flags), flags.value)
    {
      var previous := flags;
      var current := if previous.Some? then previous.value else map[];
      if u.users.Some? {
        current := map[];
        var users := u.users.value;
        for i := 0 to |users|
          invariant current == Snapshot(users[..i])
        {
          assert Front(users[..i + 1]) == users[..i];
          if users[i].sessionId != "" {
            current := current[users[i].sessionId := AsFlags(users[i].inCall)];
          }
        }
        assert users[..|users|] == users;
      }
      ghost var known := current;
      for i := 0 to |u.changed|
        invariant current == Changed(known, u.changed[..i])
      {
        assert Front(u.changed[..i + 1]) == u.changed[..i];
        if u.changed[i].sessionId != "" && u.changed[i].inCall.Some? {
          current := current[u.changed[i].sessionId := AsFlags(u.changed[i].inCall)];
        }
      }
      assert u.changed[..|u.changed|] == u.changed;
      flags := Some(current);
      if previous == None {
        return Moves({}, {});
      }
      var before := previous.value;
      moves := Moves(set s | s in current && InCall(current, s) && !InCall(before, s),
                     set s | s in before && InCall(before, s) && !InCall(current, s));
    }

    /** The members of the call without our own sessions. */
    method OthersInCall(ours: set<string>) returns (others: set<string>)
      ensures others == (if flags.Some? then Members(flags.value) else {}) - ours
    {
      if flags == None {
        return {};
      }
      var known := flags.value;
      others := set s | s in known && InCall(known, s) && s !in ours;
    }
  }

  /** One update: nobody both enters and leaves, and the moves are the whole
      difference in membership. */
  lemma MovesAreTheDifference(before: map<string, int>, after: map<string, int>)
    ensures var m := Moved(Some(before), after);
            && m.entered !! m.left
            && Members(after) == Members(before) + m.entered - m.left
            && m.entered !! Members(before)
            && m.left <= Members(before)
  {
  }

  /** An entry that says something about a session. */
  predicate Names(e: Entry, s: string, always: bool) {
    s != "" && e.sessionId == s && (always || e.inCall.Some?)
  }

  /** What an entry says: its number, or 0 where there is none to read. */
  function Said(e: Entry): int {
    match e.inCall
    case Some(Reads(n)) => n
    case _ => 0
  }

  /** The last word on a session. */
  function LastSaid(entries: seq<Entry>, s: string, always: bool): Option<int> {
    if entries == [] then None
    else if Names(Last(entries), s, always) then Some(Said(Last(entries)))
    else LastSaid(Front(entries), s, always)
  }

  function Known(flags: map<string, int>, s: string): Option<int> {
    if s in flags then Some(flags[s]) else None
  }

  lemma {:induction false} SnapshotIs(users: seq<Entry>, s: string)
    ensures Known(Snapshot(users), s) == LastSaid(users, s, true)
  {
    if users != [] {
      SnapshotIs(Front(users), s);
    }
  }

  lemma {:induction false} ChangedIs(flags: map<string, int>, changes: seq<Entry>, s: string)
    ensures Known(Changed(flags, changes), s)
         == if LastSaid(changes, s, false).Some? then LastSaid(changes, s, false) else Known(flags, s)
  {
    if changes != [] {
      ChangedIs(flags, Front(changes), s);
    }
  }

  /** What is known of a session after an update: the last change that says something about
      it; otherwise the last entry of the snapshot, if there is one - which forgets whom it
      does not name - and otherwise what was known before. */
  lemma UpdatedIs(flags: Option<map<string, int>>, u: Update, s: string)
    ensures Known(Updated(flags, u), s)
         == if LastSaid(u.changed, s, false).Some? then LastSaid(u.changed, s, false)
            else if u.users.Some? then LastSaid(u.users.value, s, true)
            else if flags.Some? then Known(flags.value, s) else None
  {
    if u.users.Some? {
      SnapshotIs(u.users.value, s);
      ChangedIs(Snapshot(u.users.value), u.changed, s);
    } else {
      ChangedIs(if flags.Some? then flags.value else map[], u.changed, s);
    }
  }

  /** A session is in the call exactly when the lowest bit of its flags is set. */
  lemma InCallIsLowestBit(flags: map<string, int>, s: string)
    ensures InCall(flags, s) <==> s in flags && exists half: int :: flags[s] == 2 * half + 1
  {
    if InCall(flags, s) {
      assert flags[s] == 2 * (flags[s] / 2) + 1;
    }
  }

  // ------------------------------------------------------------------- runs

  datatype Room = Room(flags: Option<map<string, int>>, moves: seq<Moves>)

  /** The room after a run of updates, and what each update reported. */
  function Run(updates: seq<Update>): Room {
    if updates == [] then Room(None, [])
    else
      var before := Run(Front(updates));
      var after := Updated(before.flags, Last(updates));
      Room(Some(after), before.moves + [Moved(before.flags, after)])
  }

  /** What the reports say of one session: true for every time it entered, false
      for every time it left, in order. */
  function Trail(moves: seq<Moves>, s: string): seq<bool> {
    if moves == [] then []
    else
      Trail(Front(moves), s) + (if s in Last(moves).entered then [true] else [])
                             + (if s in Last(moves).left then [false] else [])
  }

  /** In and out by turns, from where the session was. */
  ghost predicate ByTurns(trail: seq<bool>, inCall: bool) {
    && (trail != [] ==> trail[0] != inCall)
    && (forall i :: 0 < i < |trail| ==> trail[i] != trail[i - 1])
  }

  /** Over every run of updates, snapshots and changes in any mix: the first one
      seeds and reports nothing; from then on each session is reported entering and
      leaving strictly by turns, starting from its seeded membership, and is in
      the call exactly when the last report, or else the seed, says so. */
  lemma {:induction false} ReportsAlternate(updates: seq<Update>, s: string)
    requires updates != []
    ensures Run(updates).flags.Some? && Run(updates).moves != [] && Run(updates).moves[0] == Moves({}, {})
    ensures var seeded, trail := InCall(Updated(None, updates[0]), s), Trail(Run(updates).moves, s);
            && ByTurns(trail, seeded)
            && InCall(Run(updates).flags.value, s) == if trail == [] then seeded else Last(trail)
  {
    if |updates| == 1 {
      assert Front(updates) == [] && Front(Run(updates).moves) == [];
    } else {
      ReportsAlternate(Front(updates), s);
      var before, after := Run(Front(updates)), Run(updates);
      assert Front(after.moves) == before.moves;
      MovesAreTheDifference(before.flags.value, after.flags.value);
      TrailGoesOn(before.flags.value, after.flags.value, before.moves, s);
      var seeded, trail := InCall(Updated(None, updates[0]), s), Trail(before.moves, s);
      ByTurnsGoOn(trail, seeded, InCall(after.flags.value, s));
    }
  }

  lemma ByTurnsGoOn(trail: seq<bool>, inCall: bool, now: bool)
    requires ByTurns(trail, inCall)
    ensures now != (if trail == [] then inCall else Last(trail)) ==> ByTurns(trail + [now], inCall)
    ensures trail + [] == trail
  {
  }

  lemma TrailGoesOn(before: map<string, int>, after: map<string, int>, moves: seq<Moves>, s: string)
    ensures var was, now := InCall(before, s), InCall(after, s);
            Trail(moves + [Moved(Some(before), after)], s) == Trail(moves, s) + if was == now then [] else [now]
  {
    assert Front(moves + [Moved(Some(before), after)]) == moves;
  }
}
