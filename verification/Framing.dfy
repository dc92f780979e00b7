/**
 The framer of the Codex actor: it cuts the child's standard output into newline-terminated
 frames, one read at a time. The specification cuts the whole stream at once, so that proving
 the loop against it shows that the boundaries between reads do not matter.
 */
module Framing {

  newtype Byte = x: int | 0 <= x < 0x100

  type Bytes = seq<Byte>

  const NEWLINE: Byte := 10

  /** What the framer hands to the actor. A frame that does not parse as JSON is malformed. */
  datatype Inbound =
    | Frame(raw: Bytes)
    | Malformed(raw: Bytes)
    | Oversized(raw: Bytes)
    | Eof

  /** One poll of the child's output. An empty read is the end of the stream. */
  datatype Read = Data(bytes: Bytes) | Failed

  /** The bytes that arrive before the first empty or failed read. */
  function Stream(polls: seq<Read>): Bytes {
    if polls == [] || polls[0].Failed? || polls[0].bytes == [] then []
    else polls[0].bytes + Stream(polls[1..])
  }

  lemma StreamStep(polls: seq<Read>, next: nat)
    requires next < |polls| && polls[next].Data? && polls[next].bytes != []
    ensures Stream(polls[next..]) == polls[next].bytes + Stream(polls[next + 1..])
  {
  }

  // ----- Splitting a whole stream at its newlines -----

  function Join(pieces: seq<Bytes>): Bytes
    requires pieces != []
  {
    if |pieces| == 1 then pieces[0] else pieces[0] + [NEWLINE] + Join(pieces[1..])
  }

  function FirstLine(stream: Bytes): (length: nat)
    requires NEWLINE in stream
    ensures length < |stream| && stream[length] == NEWLINE
    ensures forall i :: 0 <= i < length ==> stream[i] != NEWLINE
  {
    if stream[0] == NEWLINE then 0 else 1 + FirstLine(stream[1..])
  }

  /** The lines of a stream; the last piece is the unterminated tail. */
  function Pieces(stream: Bytes): (pieces: seq<Bytes>)
    ensures pieces != []
    ensures forall piece <- pieces :: NEWLINE !in piece
    decreases |stream|
  {
    if NEWLINE !in stream then [stream]
    else
      var length := FirstLine(stream);
      [stream[..length]] + Pieces(stream[length + 1..])
  }

  /** Splitting loses nothing. */
  lemma {:induction false} PiecesJoin(stream: Bytes)
    ensures Join(Pieces(stream)) == stream
    decreases |stream|
  {
    if NEWLINE in stream {
      var length := FirstLine(stream);
      PiecesJoin(stream[length + 1..]);
      assert Pieces(stream)[1..] == Pieces(stream[length + 1..]);
      assert stream == stream[..length] + [NEWLINE] + stream[length + 1..];
    }
  }

  lemma FirstLineOfJoin(head: Bytes, rest: Bytes)
    requires NEWLINE !in head
    ensures var stream := head + [NEWLINE] + rest;
            NEWLINE in stream && FirstLine(stream) == |head| && stream[..|head|] == head && stream[|head| + 1..] == rest
  {
    var stream := head + [NEWLINE] + rest;
    assert stream[|head|] == NEWLINE;
    assert forall i :: 0 <= i < |head| ==> stream[i] == head[i] && head[i] in head;
  }

  /** `Pieces` is the only way to cut a stream into newline-free pieces. */
  lemma {:induction false} PiecesUnique(pieces: seq<Bytes>)
    requires pieces != []
    requires forall piece <- pieces :: NEWLINE !in piece
    ensures Pieces(Join(pieces)) == pieces
    decreases |pieces|
  {
    if |pieces| > 1 {
      FirstLineOfJoin(pieces[0], Join(pieces[1..]));
      PiecesUnique(pieces[1..]);
    }
  }

  // ----- What each piece becomes -----

  /** The part of a line that fits the frame buffer. */
  function Kept(line: Bytes, max: nat): (kept: Bytes)
    ensures |kept| <= max && kept <= line
    ensures |line| <= max ==> kept == line
  {
    if |line| <= max then line else line[..max]
  }

  function LineMessages(line: Bytes, max: nat, parses: Bytes -> bool): seq<Inbound> {
    if line == [] then []
    else if |line| > max then [Oversized(line[..max])]
    else if parses(line) then [Frame(line)]
    else [Malformed(line)]
  }

  /** The tail is judged by its kept bytes alone, so a buffer of size zero loses it. */
  function TailMessages(tail: Bytes, max: nat): seq<Inbound> {
    if Kept(tail, max) == [] then []
    else if |tail| > max then [Oversized(tail[..max])]
    else [Malformed(tail)]
  }

  function MessagesOfPieces(pieces: seq<Bytes>, max: nat, parses: Bytes -> bool): seq<Inbound>
    requires pieces != []
  {
    if |pieces| == 1 then TailMessages(pieces[0], max) + [Eof]
    else LineMessages(pieces[0], max, parses) + MessagesOfPieces(pieces[1..], max, parses)
  }

  /** The messages of a whole stream, read in one piece. */
  function Messages(stream: Bytes, max: nat, parses: Bytes -> bool): seq<Inbound> {
    MessagesOfPieces(Pieces(stream), max, parses)
  }

  /** Everything sent once the unfinished line `line` and the unread bytes `rest` are framed too. */
  ghost function Whole(sent: seq<Inbound>, line: Bytes, rest: Bytes, max: nat, parses: Bytes -> bool): seq<Inbound> {
    sent + Messages(line + rest, max, parses)
  }

  /** A stream that begins with a complete line gives that line's messages first. */
  lemma LineFirst(line: Bytes, rest: Bytes, max: nat, parses: Bytes -> bool)
    requires NEWLINE !in line
    ensures Messages(line + ([NEWLINE] + rest), max, parses)
              == LineMessages(line, max, parses) + Messages(rest, max, parses)
  {
    FirstLineOfJoin(line, rest);
    assert line + ([NEWLINE] + rest) == line + [NEWLINE] + rest;
    assert ([line] + Pieces(rest))[1..] == Pieces(rest);
  }

  lemma WholeByte(sent: seq<Inbound>, line: Bytes, byte: Byte, rest: Bytes, max: nat, parses: Bytes -> bool)
    requires NEWLINE !in line
    ensures Whole(sent, line, [byte] + rest, max, parses)
         == if byte == NEWLINE then Whole(sent + LineMessages(line, max, parses), [], rest, max, parses)
            else Whole(sent + [], line + [byte], rest, max, parses)
  {
    if byte == NEWLINE {
      LineFirst(line, rest, max, parses);
      Associates(sent, LineMessages(line, max, parses), Messages(rest, max, parses));
      assert [] + rest == rest;
    } else {
      Associates(line, [byte], rest);
      assert sent + [] == sent;
    }
  }

  lemma Associates<T>(a: seq<T>, b: seq<T>, c: seq<T>)
    ensures a + (b + c) == (a + b) + c
  {
  }

  lemma {:induction false} WholeStart(polls: seq<Read>, max: nat, parses: Bytes -> bool)
    ensures Whole([], [], Stream(polls[0..]), max, parses) == Messages(Stream(polls), max, parses)
  {
    assert [] + Stream(polls) == Stream(polls) && polls[0..] == polls;
  }

  lemma WholeTail(sent: seq<Inbound>, line: Bytes, max: nat, parses: Bytes -> bool)
    requires NEWLINE !in line
    ensures Whole(sent, line, [], max, parses) == sent + TailMessages(line, max) + [Eof]
  {
    assert line + [] == line;
  }

  /** The receiver takes `accepted` messages and is then dropped. */
  function Accepted(messages: seq<Inbound>, accepted: nat): seq<Inbound> {
    if accepted <= |messages| then messages[..accepted] else messages
  }

  method Send(sent: seq<Inbound>, message: Inbound, accepted: nat) returns (sent': seq<Inbound>, ok: bool)
    requires |sent| <= accepted
    ensures sent' == Accepted(sent + [message], accepted)
    ensures ok <==> |sent| < accepted
  {
    ok := |sent| < accepted;
    sent' := if ok then sent + [message] else sent;
  }

  lemma AcceptedAppend(messages: seq<Inbound>, last: Inbound, accepted: nat)
    ensures Accepted(Accepted(messages, accepted) + [last], accepted) == Accepted(messages + [last], accepted)
  {
  }

  lemma WholeExtends(sent: seq<Inbound>, line: Bytes, rest: Bytes, max: nat, parses: Bytes -> bool, accepted: nat)
    ensures |sent| > accepted ==> Accepted(Whole(sent, line, rest, max, parses), accepted) == Accepted(sent, accepted)
  {
  }

  /** The frame buffer holds the kept bytes of the unfinished line. */
  ghost predicate Buffers(frame: Bytes, oversized: bool, line: Bytes, max: nat) {
    && NEWLINE !in line
    && frame == Kept(line, max)
    && oversized == (|line| > max)
  }

  /** One turn of the inner loop: a newline closes the line, any other byte extends it. */
  method TakeByte(byte: Byte, frame: Bytes, oversized: bool, ghost line: Bytes, max: nat, parses: Bytes -> bool)
    returns (frame': Bytes, oversized': bool, closed: seq<Inbound>)
    requires Buffers(frame, oversized, line, max)
    ensures closed == if byte == NEWLINE then LineMessages(line, max, parses) else []
    ensures Buffers(frame', oversized', if byte == NEWLINE then [] else line + [byte], max)
  {
    frame', oversized', closed := frame, oversized, [];
    if byte == NEWLINE {
      if frame != [] || oversized {
        closed := [if oversized then Oversized(frame) else if parses(frame) then Frame(frame) else Malformed(frame)];
      }
      frame', oversized' := [], false;
    } else if |frame| < max {
      frame' := frame + [byte];
    } else {
      oversized' := true;
    }
  }

  method SendClosed(sent: seq<Inbound>, closed: seq<Inbound>, accepted: nat) returns (sent': seq<Inbound>, open: bool)
    requires |sent| <= accepted && |closed| <= 1
    ensures sent' == Accepted(sent + closed, accepted)
    ensures open ==> sent' == sent + closed && |sent'| <= accepted
    ensures !open ==> |sent + closed| > accepted
  {
    sent', open := sent, true;
    if closed != [] {
      sent', open := Send(sent', closed[0], accepted);
    }
  }

  lemma Uncons(bytes: Bytes, i: nat, later: Bytes)
    requires i < |bytes|
    ensures bytes[i..] + later == [bytes[i]] + (bytes[i + 1..] + later)
  {
  }

  /** One byte, and the message it completes, if it does and the actor still takes messages. */
  method FrameByte(byte: Byte, frame: Bytes, oversized: bool, sent: seq<Inbound>, ghost line: Bytes,
                   ghost rest: Bytes, max: nat, parses: Bytes -> bool, accepted: nat)
    returns (frame': Bytes, oversized': bool, sent': seq<Inbound>, open: bool, ghost line': Bytes)
    requires Buffers(frame, oversized, line, max) && |sent| <= accepted
    ensures open ==> Buffers(frame', oversized', line', max) && |sent'| <= accepted
    ensures open ==> Whole(sent', line', rest, max, parses) == Whole(sent, line, [byte] + rest, max, parses)
    ensures !open ==> sent' == Accepted(Whole(sent, line, [byte] + rest, max, parses), accepted)
  {
    WholeByte(sent, line, byte, rest, max, parses);
    var closed;
    frame', oversized', closed := TakeByte(byte, frame, oversized, line, max, parses);
    line' := if byte == NEWLINE then [] else line + [byte];
    WholeExtends(sent + closed, line', rest, max, parses, accepted);
    sent', open := SendClosed(sent, closed, accepted);
  }

  /** The inner loop: one read, delivered byte by byte. */
  method TakeRead(bytes: Bytes, frame: Bytes, oversized: bool, sent: seq<Inbound>, ghost line: Bytes,
                  ghost later: Bytes, max: nat, parses: Bytes -> bool, accepted: nat)
    returns (frame': Bytes, oversized': bool, sent': seq<Inbound>, open: bool, ghost line': Bytes)
    requires Buffers(frame, oversized, line, max) && |sent| <= accepted
    ensures open ==> Buffers(frame', oversized', line', max) && |sent'| <= accepted
    ensures open ==> Whole(sent', line', later, max, parses) == Whole(sent, line, bytes + later, max, parses)
    ensures !open ==> sent' == Accepted(Whole(sent, line, bytes + later, max, parses), accepted)
  {
    frame', oversized', sent', open, line' := frame, oversized, sent, true, line;
    var i := 0;
    assert bytes[0..] == bytes;
    while i < |bytes|
      invariant i <= |bytes| && open
      invariant Buffers(frame', oversized', line', max) && |sent'| <= accepted
      invariant Whole(sent', line', bytes[i..] + later, max, parses) == Whole(sent, line, bytes + later, max, parses)
    {
      Uncons(bytes, i, later);
      frame', oversized', sent', open, line' :=
        FrameByte(bytes[i], frame', oversized', sent', line', bytes[i + 1..] + later, max, parses, accepted);
      if !open {
        return;
      }
      i := i + 1;
    }
    assert bytes[i..] + later == later;
  }

  /** After the last read: the unterminated tail, if the buffer kept any of it, then the end marker. */
  method SendTail(sent: seq<Inbound>, frame: Bytes, oversized: bool, ghost line: Bytes, max: nat, accepted: nat)
    returns (sent': seq<Inbound>)
    requires Buffers(frame, oversized, line, max) && |sent| <= accepted
    ensures sent' == Accepted(sent + TailMessages(line, max) + [Eof], accepted)
  {
    sent' := sent;
    if frame != [] {
      var tailSent;
      sent', tailSent := Send(sent', if oversized then Oversized(frame) else Malformed(frame), accepted);
    }
    assert sent' == Accepted(sent + TailMessages(line, max), accepted);
    AcceptedAppend(sent + TailMessages(line, max), Eof, accepted);
    var eofSent;
    sent', eofSent := Send(sent', Eof, accepted);
  }

  /**
   The framing loop. What it sends depends on the concatenated stream alone, and its buffer
   never outgrows `max`.
   */
  method FrameStream(polls: seq<Read>, max: nat, parses: Bytes -> bool, accepted: nat) returns (sent: seq<Inbound>)
    ensures sent == Accepted(Messages(Stream(polls), max, parses), accepted)
  {
    ghost var line: Bytes := [];
    var frame: Bytes, oversized, next := [], false, 0;
    sent := [];
    ghost var all := Messages(Stream(polls), max, parses);
    WholeStart(polls, max, parses);
    while next < |polls| && polls[next].Data? && polls[next].bytes != []
      invariant next <= |polls|
      invariant Buffers(frame, oversized, line, max) && |frame| <= max && |sent| <= accepted
      invariant all == Whole(sent, line, Stream(polls[next..]), max, parses)
    {
      StreamStep(polls, next);
      var open;
      frame, oversized, sent, open, line :=
        TakeRead(polls[next].bytes, frame, oversized, sent, line, Stream(polls[next + 1..]), max, parses, accepted);
      if !open {
        return;
      }
      next := next + 1;
    }
    WholeTail(sent, line, max, parses);
    sent := SendTail(sent, frame, oversized, line, max, accepted);
  }

  // ----- What the specification promises -----

  function Frames(raws: seq<Bytes>): seq<Inbound> {
    if raws == [] then [] else [Frame(raws[0])] + Frames(raws[1..])
  }

  lemma {:induction false} MessagesOfFrames(frames: seq<Bytes>, max: nat, parses: Bytes -> bool)
    requires forall frame <- frames :: frame != [] && |frame| <= max && parses(frame)
    ensures MessagesOfPieces(frames + [[]], max, parses) == Frames(frames) + [Eof]
    decreases |frames|
  {
    if frames == [] {
      assert frames + [[]] == [[]];
    } else {
      MessagesOfFrames(frames[1..], max, parses);
      assert (frames + [[]])[1..] == frames[1..] + [[]];
    }
  }

  /** Writing newline-terminated frames and framing them again gives the frames back, then one end marker. */
  lemma {:induction false} RoundTrip(frames: seq<Bytes>, max: nat, parses: Bytes -> bool)
    requires forall frame <- frames :: frame != [] && |frame| <= max && NEWLINE !in frame && parses(frame)
    ensures Messages(Join(frames + [[]]), max, parses) == Frames(frames) + [Eof]
  {
    PiecesUnique(frames + [[]]);
    MessagesOfFrames(frames, max, parses);
  }

  /**
   The message carries at most `max` bytes of a non-empty piece, all of it unless it is marked
   oversized. A frame is a complete line that parses; what is malformed is the tail, or does not.
   */
  predicate Gives(piece: Bytes, complete: bool, message: Inbound, max: nat, parses: Bytes -> bool) {
    && piece != [] && !message.Eof? && |message.raw| <= max && message.raw <= piece
    && (message.Oversized? <==> message.raw != piece)
    && (message.Frame? ==> complete && parses(piece))
    && (message.Malformed? ==> !complete || !parses(piece))
  }

  predicate ComesFrom(message: Inbound, pieces: seq<Bytes>, max: nat, parses: Bytes -> bool) {
    exists i :: 0 <= i < |pieces| && Gives(pieces[i], i < |pieces| - 1, message, max, parses)
  }

  function NonEmpty(pieces: seq<Bytes>): nat {
    if pieces == [] then 0 else (if pieces[0] == [] then 0 else 1) + NonEmpty(pieces[1..])
  }

  /** Each non-empty piece gives one message, but for the tail when the frame buffer holds nothing. */
  lemma {:induction false} MessagesShape(pieces: seq<Bytes>, max: nat, parses: Bytes -> bool)
    requires pieces != []
    ensures var messages, lost := MessagesOfPieces(pieces, max, parses), max == 0 && pieces[|pieces| - 1] != [];
            && |messages| == 1 + NonEmpty(pieces) - (if lost then 1 else 0)
            && |messages| > 0 && messages[|messages| - 1] == Eof
            && forall i :: 0 <= i < |messages| - 1 ==> ComesFrom(messages[i], pieces, max, parses)
    decreases |pieces|
  {
    var messages := MessagesOfPieces(pieces, max, parses);
    if |pieces| == 1 {
      assert NonEmpty(pieces[1..]) == 0;
      assert |messages| == 2 ==> Gives(pieces[0], false, messages[0], max, parses);
    } else {
      MessagesShape(pieces[1..], max, parses);
      var head, rest := LineMessages(pieces[0], max, parses), MessagesOfPieces(pieces[1..], max, parses);
      forall i | 0 <= i < |messages| - 1 ensures ComesFrom(messages[i], pieces, max, parses) {
        if i < |head| {
          assert Gives(pieces[0], true, messages[i], max, parses);
        } else {
          FromLater(rest[i - |head|], pieces, max, parses);
        }
      }
    }
  }

  lemma FromLater(message: Inbound, pieces: seq<Bytes>, max: nat, parses: Bytes -> bool)
    requires pieces != [] && ComesFrom(message, pieces[1..], max, parses)
    ensures ComesFrom(message, pieces, max, parses)
  {
    var k :| 0 <= k < |pieces[1..]| && Gives(pieces[1..][k], k < |pieces[1..]| - 1, message, max, parses);
    assert pieces[1..][k] == pieces[k + 1];
  }

  /**
   Every message but the last carries at most `max` bytes, all from one line; it carries the
   whole line unless it is marked oversized; the last message is the only end marker.
   */
  lemma {:induction false} StreamShape(stream: Bytes, max: nat, parses: Bytes -> bool)
    ensures var messages := Messages(stream, max, parses);
            && |messages| > 0 && messages[|messages| - 1] == Eof
            && forall i :: 0 <= i < |messages| - 1 ==> ComesFrom(messages[i], Pieces(stream), max, parses)
  {
    MessagesShape(Pieces(stream), max, parses);
  }

  /** An unterminated tail is reported exactly when the frame buffer can hold a byte of it. */
  lemma TailReported(tail: Bytes, max: nat, parses: Bytes -> bool)
    requires tail != [] && NEWLINE !in tail
    ensures |Messages(tail, max, parses)| == 2 <==> max > 0
    ensures max == 0 ==> Messages(tail, max, parses) == [Eof]
  {
  }
}
