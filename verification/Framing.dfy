/** Finding the messages in a stream (bridge/sip_messages.py, split_messages and
    content_length_of; bridge/sip_transport.py, the read loop).

    A byte is the character with its number. Reading a header works on the bytes:
    the decoding in between changes nothing below 0x80. */
module Framing {
  import opened Prelude
  import opened Text

  type Octet = c: char | c as int < 0x100
  type Octets = seq<Octet>

  /** The body length a header block announces: its first line is not searched. */
  function ContentLengthOf(header: string): nat {
    LengthIn(SplitLines(header)[1..])
  }

  predicate IsLengthName(name: string) {
    Lower(Strip(name)) == "content-length" || Lower(Strip(name)) == "l"
  }

  predicate AnnouncesLength(line: string) {
    IndexOf(line, ':') < |line| && IsLengthName(line[..IndexOf(line, ':')])
  }

  function LengthIn(lines: seq<string>): nat {
    if lines == [] then 0
    else if AnnouncesLength(lines[0]) then AnnouncedLength(lines[0])
    else LengthIn(lines[1..])
  }

  function AnnouncedLength(line: string): nat
    requires AnnouncesLength(line)
  {
    match ParseInt(Strip(line[IndexOf(line, ':') + 1..]))
    case None => 0
    case Some(n) => Max(0, n)
  }

  predicate StartsWithCrlf(b: Octets) {
    |b| >= 2 && b[0] == '\r' && b[1] == '\n'
  }

  predicate BlankLineAt(b: string, i: nat) {
    i + 4 <= |b| && b[i] == '\r' && b[i + 1] == '\n' && b[i + 2] == '\r' && b[i + 3] == '\n'
  }

  /** Where the first blank line begins, or the length where there is none. */
  function HeaderEnd(b: string): (i: nat)
    ensures i <= |b|
    ensures i < |b| ==> BlankLineAt(b, i)
    ensures forall k: nat :: k < i ==> !BlankLineAt(b, k)
  {
    if b == [] || BlankLineAt(b, 0) then 0
    else
      var i := HeaderEnd(b[1..]);
      assert forall k: nat :: 0 < k ==> (BlankLineAt(b, k) <==> BlankLineAt(b[1..], k - 1));
      1 + i
  }

  /** Where the message at the head of a buffer ends, once it has a header. */
  function MessageEnd(b: Octets): (end: nat)
    requires HeaderEnd(b) < |b|
    ensures end >= HeaderEnd(b) + 4
  {
    HeaderEnd(b) + 4 + ContentLengthOf(b[..HeaderEnd(b)])
  }

  /** The complete messages of a buffer, and what is left of it. */
  datatype Pieces = Pieces(messages: seq<Octets>, rest: Octets)

  function Split(b: Octets): Pieces
    decreases |b|
  {
    if StartsWithCrlf(b) then Split(b[2..])
    else if HeaderEnd(b) == |b| || |b| < MessageEnd(b) then Pieces([], b)
    else Behind(b[..MessageEnd(b)], Split(b[MessageEnd(b)..]))
  }

  function Behind(message: Octets, p: Pieces): Pieces {
    Pieces([message] + p.messages, p.rest)
  }

  /** How far the loop has come. */
  ghost predicate Taken(buffer: Octets, messages: seq<Octets>, rest: Octets) {
    Split(buffer) == Pieces(messages + Split(rest).messages, Split(rest).rest)
  }

  lemma TakenKeepalive(buffer: Octets, messages: seq<Octets>, rest: Octets)
    requires Taken(buffer, messages, rest) && StartsWithCrlf(rest)
    ensures Taken(buffer, messages, rest[2..])
  {
  }

  lemma TakenMessage(buffer: Octets, messages: seq<Octets>, rest: Octets)
    requires Taken(buffer, messages, rest) && !StartsWithCrlf(rest)
    requires HeaderEnd(rest) < |rest| && MessageEnd(rest) <= |rest|
    ensures Taken(buffer, messages + [rest[..MessageEnd(rest)]], rest[MessageEnd(rest)..])
  {
    var m, after := rest[..MessageEnd(rest)], rest[MessageEnd(rest)..];
    assert Split(rest) == Behind(m, Split(after));
    assert messages + ([m] + Split(after).messages) == messages + [m] + Split(after).messages;
  }

  lemma TakenAll(buffer: Octets, messages: seq<Octets>, rest: Octets)
    requires Taken(buffer, messages, rest) && !StartsWithCrlf(rest)
    requires HeaderEnd(rest) == |rest| || |rest| < MessageEnd(rest)
    ensures Split(buffer) == Pieces(messages, rest)
  {
    assert Split(rest) == Pieces([], rest);
  }

  /** The loop itself: every turn takes something off the buffer. */
  method SplitMessages(buffer: Octets) returns (messages: seq<Octets>, rest: Octets)
    ensures Pieces(messages, rest) == Split(buffer)
  {
    messages, rest := [], buffer;
    while true
      invariant Taken(buffer, messages, rest)
      decreases |rest|
    {
      ghost var length := |rest|;
      while StartsWithCrlf(rest)
        invariant |rest| <= length && Taken(buffer, messages, rest)
        decreases |rest|
      {
        TakenKeepalive(buffer, messages, rest);
        rest := rest[2..];
      }
      if HeaderEnd(rest) == |rest| {
        TakenAll(buffer, messages, rest);
        return;
      }
      var total := MessageEnd(rest);
      if |rest| < total {
        TakenAll(buffer, messages, rest);
        return;
      }
      TakenMessage(buffer, messages, rest);
      messages := messages + [rest[..total]];
      rest := rest[total..];
    }
  }

  // ------------------------------------------------- in whatever chunks

  lemma HeaderEndStays(a: Octets, b: Octets)
    requires HeaderEnd(a) < |a|
    ensures HeaderEnd(a + b) == HeaderEnd(a)
  {
    assert forall k: nat :: k + 4 <= |a| ==> (BlankLineAt(a + b, k) <==> BlankLineAt(a, k));
  }

  lemma MessageEndStays(a: Octets, b: Octets)
    requires HeaderEnd(a) < |a|
    ensures HeaderEnd(a + b) == HeaderEnd(a) && MessageEnd(a + b) == MessageEnd(a)
  {
    HeaderEndStays(a, b);
    assert (a + b)[..HeaderEnd(a)] == a[..HeaderEnd(a)];
  }

  /** A message complete at the head of a buffer is taken off it, whatever follows. */
  lemma TakesMessage(a: Octets, b: Octets)
    requires !StartsWithCrlf(a) && HeaderEnd(a) < |a| && MessageEnd(a) <= |a|
    ensures Split(a + b) == Behind(a[..MessageEnd(a)], Split(a[MessageEnd(a)..] + b))
  {
    MessageEndStays(a, b);
    var end := MessageEnd(a);
    assert !StartsWithCrlf(a + b);
    assert (a + b)[..end] == a[..end];
    assert (a + b)[end..] == a[end..] + b;
  }

  /** What there is once a further chunk has come in behind some pieces. */
  function Continue(p: Pieces, chunk: Octets): Pieces {
    var next := Split(p.rest + chunk);
    Pieces(p.messages + next.messages, next.rest)
  }

  lemma ContinueBehind(message: Octets, p: Pieces, chunk: Octets)
    ensures Continue(Behind(message, p), chunk) == Behind(message, Continue(p, chunk))
  {
    var next := Split(p.rest + chunk);
    assert ([message] + p.messages) + next.messages == [message] + (p.messages + next.messages);
  }

  lemma TakesKeepalive(a: Octets, b: Octets)
    requires StartsWithCrlf(a)
    ensures Split(a) == Split(a[2..])
    ensures Split(a + b) == Split(a[2..] + b)
  {
    assert (a + b)[2..] == a[2..] + b;
  }

  lemma ContinueNothing(rest: Octets, chunk: Octets)
    ensures Continue(Pieces([], rest), chunk) == Split(rest + chunk)
  {
    var next := Split(rest + chunk);
    assert [] + next.messages == next.messages;
  }

  lemma WaitsAlone(a: Octets)
    requires !StartsWithCrlf(a) && (HeaderEnd(a) == |a| || |a| < MessageEnd(a))
    ensures Split(a) == Pieces([], a)
  {
  }

  lemma TakesMessageAlone(a: Octets)
    requires !StartsWithCrlf(a) && HeaderEnd(a) < |a| && MessageEnd(a) <= |a|
    ensures Split(a) == Behind(a[..MessageEnd(a)], Split(a[MessageEnd(a)..]))
  {
  }

  /** Splitting what has arrived, and then the remainder with what arrives next, is
      splitting it all at once - wherever the cut is: in a line break, in a header,
      in a body. */
  lemma {:induction false} SplitInChunks(a: Octets, b: Octets)
    ensures Split(a + b) == Continue(Split(a), b)
    decreases |a|
  {
    if StartsWithCrlf(a) {
      TakesKeepalive(a, b);
      SplitInChunks(a[2..], b);
    } else if HeaderEnd(a) < |a| && MessageEnd(a) <= |a| {
      TakesMessage(a, b);
      TakesMessageAlone(a);
      SplitInChunks(a[MessageEnd(a)..], b);
      ContinueBehind(a[..MessageEnd(a)], Split(a[MessageEnd(a)..]), b);
    } else {
      WaitsAlone(a);
      ContinueNothing(a, b);
    }
  }

  // ---------------------------------------- what a stream of messages is

  /** A message that ends where it says it does. */
  predicate Framed(m: Octets) {
    !StartsWithCrlf(m) && HeaderEnd(m) < |m| && MessageEnd(m) == |m|
  }

  /** What cannot be taken off a buffer yet. */
  predicate Incomplete(r: Octets) {
    !StartsWithCrlf(r) && (HeaderEnd(r) == |r| || |r| < MessageEnd(r))
  }

  datatype Token = Keepalive | Message(bytes: Octets)

  predicate Proper(tokens: seq<Token>) {
    forall i :: 0 <= i < |tokens| && tokens[i].Message? ==> Framed(tokens[i].bytes)
  }

  function TokenBytes(t: Token): Octets {
    match t
    case Keepalive => ['\r', '\n']
    case Message(bytes) => bytes
  }

  function Wire(tokens: seq<Token>, rest: Octets): Octets {
    if tokens == [] then rest else TokenBytes(tokens[0]) + Wire(tokens[1..], rest)
  }

  function Messages(tokens: seq<Token>): seq<Octets> {
    if tokens == [] then []
    else if tokens[0].Message? then [tokens[0].bytes] + Messages(tokens[1..])
    else Messages(tokens[1..])
  }

  lemma SplitKeepalive(b: Octets)
    ensures Split(['\r', '\n'] + b) == Split(b)
  {
    assert (['\r', '\n'] + b)[2..] == b;
  }

  lemma SplitFramed(m: Octets, b: Octets)
    requires Framed(m)
    ensures Split(m + b) == Behind(m, Split(b))
  {
    TakesMessage(m, b);
    assert m[..MessageEnd(m)] == m;
    assert m[MessageEnd(m)..] + b == b;
  }

  /** Messages with keepalives anywhere between them are split into those messages. */
  lemma {:induction false} StreamSplits(tokens: seq<Token>, rest: Octets)
    requires Proper(tokens) && Incomplete(rest)
    ensures Split(Wire(tokens, rest)) == Pieces(Messages(tokens), rest)
  {
    if tokens != [] {
      StreamSplits(tokens[1..], rest);
      match tokens[0]
      case Keepalive => SplitKeepalive(Wire(tokens[1..], rest));
      case Message(m) => SplitFramed(m, Wire(tokens[1..], rest));
    }
  }

  /** What a buffer was read as. */
  function Tokens(b: Octets): seq<Token>
    decreases |b|
  {
    if StartsWithCrlf(b) then [Keepalive] + Tokens(b[2..])
    else if Incomplete(b) then []
    else [Message(b[..MessageEnd(b)])] + Tokens(b[MessageEnd(b)..])
  }

  lemma CutIsFramed(b: Octets)
    requires !StartsWithCrlf(b) && !Incomplete(b)
    ensures Framed(b[..MessageEnd(b)])
  {
    var end := MessageEnd(b);
    var m := b[..end];
    assert forall k: nat :: k + 4 <= |m| ==> (BlankLineAt(m, k) <==> BlankLineAt(b, k));
    assert BlankLineAt(m, HeaderEnd(b));
    assert HeaderEnd(m) == HeaderEnd(b);
    assert m[..HeaderEnd(m)] == b[..HeaderEnd(b)];
  }

  predicate ReadAs(b: Octets, tokens: seq<Token>) {
    && Proper(tokens) && Wire(tokens, Split(b).rest) == b
    && Messages(tokens) == Split(b).messages && Incomplete(Split(b).rest)
  }

  lemma ReadKeepalive(b: Octets, tokens: seq<Token>)
    requires StartsWithCrlf(b) && ReadAs(b[2..], tokens)
    ensures ReadAs(b, [Keepalive] + tokens)
  {
    var all := [Keepalive] + tokens;
    assert all[1..] == tokens;
    assert Wire(all, Split(b).rest) == ['\r', '\n'] + b[2..];
  }

  lemma ReadMessage(b: Octets, tokens: seq<Token>)
    requires !StartsWithCrlf(b) && !Incomplete(b) && ReadAs(b[MessageEnd(b)..], tokens)
    ensures ReadAs(b, [Message(b[..MessageEnd(b)])] + tokens)
  {
    CutIsFramed(b);
    TakesMessageAlone(b);
    var m := b[..MessageEnd(b)];
    var all := [Message(m)] + tokens;
    assert all[1..] == tokens;
    assert Wire(all, Split(b).rest) == m + b[MessageEnd(b)..];
  }

  /** Every buffer is nothing but keepalives, messages that end where they say, and an
      incomplete rest: splitting drops no byte but keepalives and makes none up. */
  lemma {:induction false} SplitReadsAll(b: Octets)
    ensures ReadAs(b, Tokens(b))
    decreases |b|
  {
    if StartsWithCrlf(b) {
      SplitReadsAll(b[2..]);
      ReadKeepalive(b, Tokens(b[2..]));
    } else if !Incomplete(b) {
      SplitReadsAll(b[MessageEnd(b)..]);
      ReadMessage(b, Tokens(b[MessageEnd(b)..]));
    }
  }

  /** What is received: the chunks until the far end closes, which reads as an empty one. */
  function Received(chunks: seq<Octets>): (r: seq<Octets>)
    ensures r <= chunks && (forall k :: 0 <= k < |r| ==> r[k] != [])
    ensures |r| < |chunks| ==> chunks[|r|] == []
  {
    if chunks == [] || chunks[0] == [] then [] else [chunks[0]] + Received(chunks[1..])
  }

  lemma ReceivedIs(chunks: seq<Octets>, n: nat)
    requires n <= |chunks| && (forall k :: 0 <= k < n ==> chunks[k] != [])
    requires n == |chunks| || chunks[n] == []
    ensures Received(chunks) == chunks[..n]
  {
    assert |Received(chunks)| == n;
  }

  lemma OneMoreChunk(chunks: seq<Octets>, n: nat)
    requires n < |chunks|
    ensures Split(Flatten(chunks[..n + 1])) == Continue(Split(Flatten(chunks[..n])), chunks[n])
  {
    SplitInChunks(Flatten(chunks[..n]), chunks[n]);
    FlattenSnoc(chunks[..n], chunks[n]);
    assert chunks[..n + 1] == chunks[..n] + [chunks[n]];
  }

  /** The read loop. */
  method ReadLoop(chunks: seq<Octets>) returns (delivered: seq<Octets>, buffer: Octets)
    ensures Pieces(delivered, buffer) == Split(Flatten(Received(chunks)))
  {
    delivered, buffer := [], [];
    var n := 0;
    while n < |chunks| && chunks[n] != []
      invariant 0 <= n <= |chunks| && (forall k :: 0 <= k < n ==> chunks[k] != [])
      invariant Pieces(delivered, buffer) == Split(Flatten(chunks[..n]))
    {
      var chunk := chunks[n];
      OneMoreChunk(chunks, n);
      var messages;
      messages, buffer := SplitMessages(buffer + chunk);
      delivered := delivered + messages;
      n := n + 1;
    }
    ReceivedIs(chunks, n);
  }
}
