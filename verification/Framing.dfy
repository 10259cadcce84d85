// Frames on the wire: the 16-byte header, and the reader that cuts a byte stream into frames.
module Framing {
  import opened Domain

  type Byte = x: int | 0 <= x < 256
  type Word = x: int | 0 <= x < 0x1_0000_0000

  const HEADER_LENGTH := 16
  const PROTOCOL: seq<Byte> := [0x54, 0x52, 0x4D, 0x53]  // 'T' 'R' 'M' 'S'

  datatype Header = Header(msgType: Word, clientId: Word, payloadLength: Word)

  // ---------------------------------------------------------------- the header

  function WordBytes(w: Word): (b: seq<Byte>)
    ensures |b| == 4
  {
    [w / 0x1_00_00_00, w / 0x1_00_00 % 256, w / 0x1_00 % 256, w % 256]
  }

  function WordOf(b: seq<Byte>): Word
    requires |b| == 4
  {
    b[0] as int * 0x1_00_00_00 + b[1] as int * 0x1_00_00 + b[2] as int * 0x1_00 + b[3] as int
  }

  lemma WordRoundTrip(w: Word)
    ensures WordOf(WordBytes(w)) == w
  {
    var a, b, c := w / 0x1_00, w / 0x1_00_00, w / 0x1_00_00_00;
    assert w == a * 0x1_00 + w % 256;
    assert b == a / 256 && a == b * 256 + a % 256;
    assert c == b / 256 && b == c * 256 + b % 256;
  }

  lemma BytesRoundTrip(b: seq<Byte>)
    requires |b| == 4
    ensures WordBytes(WordOf(b)) == b
  {
    var w := WordOf(b);
    assert w / 0x1_00 == b[0] as int * 0x1_00_00 + b[1] as int * 0x1_00 + b[2] as int;
    assert w / 0x1_00_00 == b[0] as int * 0x1_00 + b[1] as int;
  }

  function HeaderBytes(h: Header): (b: seq<Byte>)
    ensures |b| == HEADER_LENGTH
  {
    PROTOCOL + WordBytes(h.msgType) + WordBytes(h.clientId) + WordBytes(h.payloadLength)
  }

  // None when the source raises an assertion.
  function ParseHeader(b: seq<Byte>): Option<Header> {
    if |b| >= HEADER_LENGTH && b[..4] == PROTOCOL
    then Some(Header(WordOf(b[4..8]), WordOf(b[8..12]), WordOf(b[12..16])))
    else None
  }

  lemma HeaderRoundTrip(h: Header, rest: seq<Byte>)
    ensures ParseHeader(HeaderBytes(h) + rest) == Some(h)
  {
    var b := HeaderBytes(h) + rest;
    assert b[..4] == PROTOCOL;
    assert b[4..8] == WordBytes(h.msgType);
    assert b[8..12] == WordBytes(h.clientId);
    assert b[12..16] == WordBytes(h.payloadLength);
    hide WordOf, WordBytes;
    WordRoundTrip(h.msgType);
    WordRoundTrip(h.clientId);
    WordRoundTrip(h.payloadLength);
  }

  // The header byte by byte: "TRMS", then three words, the most significant byte first.
  lemma HeaderLayout(h: Header, k: nat)
    requires k < 4
    ensures var b, unit := HeaderBytes(h), [0x100_0000, 0x1_0000, 0x100, 1][k];
      && b[k] as int == "TRMS"[k] as int
      && b[4 + k] == h.msgType / unit % 256 && b[8 + k] == h.clientId / unit % 256 && b[12 + k] == h.payloadLength / unit % 256
  {
    hide WordOf;
    assert forall w: Word :: WordBytes(w)[k] == w / [0x100_0000, 0x1_0000, 0x100, 1][k] % 256;
    hide WordBytes;
  }

  // A header is accepted only in the form it is written in.
  lemma ParsedIsWritten(b: seq<Byte>)
    requires ParseHeader(b).Some?
    ensures b[..HEADER_LENGTH] == HeaderBytes(ParseHeader(b).value)
  {
    BytesRoundTrip(b[4..8]);
    BytesRoundTrip(b[8..12]);
    BytesRoundTrip(b[12..16]);
    hide WordOf, WordBytes;
    assert b[..16] == b[..4] + b[4..8] + b[8..12] + b[12..16];
  }

  // Writes one 32-bit field, most significant byte first.
  method WriteWord(out: array<Byte>, at: nat, w: Word)
    requires at + 4 <= out.Length
    modifies out
    ensures out[..] == old(out[..at]) + WordBytes(w) + old(out[at + 4..])
  {
    out[at] := w / 0x1_00_00_00;
    out[at + 1] := w / 0x1_00_00 % 256;
    out[at + 2] := w / 0x1_00 % 256;
    out[at + 3] := w % 256;
  }

  method Serialize(h: Header) returns (out: array<Byte>)
    ensures fresh(out) && out[..] == HeaderBytes(h)
  {
    out := new Byte[HEADER_LENGTH](_ => 0);
    hide WordBytes;
    out[0], out[1], out[2], out[3] := PROTOCOL[0], PROTOCOL[1], PROTOCOL[2], PROTOCOL[3];
    assert out[..4] == PROTOCOL;
    WriteWord(out, 4, h.msgType);
    assert out[..8] == PROTOCOL + WordBytes(h.msgType);
    WriteWord(out, 8, h.clientId);
    assert out[..12] == PROTOCOL + WordBytes(h.msgType) + WordBytes(h.clientId);
    WriteWord(out, 12, h.payloadLength);
    assert out[..16] == out[..];
  }

  method Deserialize(b: seq<Byte>) returns (h: Option<Header>)
    ensures h == ParseHeader(b)
  {
    if |b| >= 16 {
      if b[0] == PROTOCOL[0] && b[1] == PROTOCOL[1] && b[2] == PROTOCOL[2] && b[3] == PROTOCOL[3] {
        assert b[..4] == PROTOCOL;
        var msgType := WordOf(b[4..8]);
        var clientId := WordOf(b[8..12]);
        var payloadLength := WordOf(b[12..16]);
        return Some(Header(msgType, clientId, payloadLength));
      }
    }
    h := None;
  }

  // ---------------------------------------------------------------- frames

  datatype Message = Message(msgType: Word, clientId: Word, payload: seq<Byte>)

  // The length field is 32 bits wide.
  function Frame(m: Message): seq<Byte> {
    HeaderBytes(Header(m.msgType, m.clientId, |m.payload| % 0x1_0000_0000)) + m.payload
  }

  method SerializeMessage(m: Message) returns (out: seq<Byte>)
    ensures out == Frame(m)
  {
    out := seq(HEADER_LENGTH, _ => 0);
    out := out + m.payload;
    out := out + [0];
    out := out[..|out| - 1];
    var headerBytes := Serialize(Header(m.msgType, m.clientId, (|out| - HEADER_LENGTH) % 0x1_0000_0000));
    out := headerBytes[..] + out[HEADER_LENGTH..];
  }

  function Unframe(b: seq<Byte>): Option<Message> {
    var h := ParseHeader(b);
    if h.Some? then Some(Message(h.value.msgType, h.value.clientId, b[HEADER_LENGTH..])) else None
  }

  // Every frame gives its message back; the length field is right exactly below 4 GiB.
  lemma FrameRoundTrip(m: Message)
    ensures Unframe(Frame(m)) == Some(m)
    ensures IsFrame(Frame(m)) <==> |m.payload| < 0x1_0000_0000
  {
    var h := Header(m.msgType, m.clientId, |m.payload| % 0x1_0000_0000);
    HeaderRoundTrip(h, m.payload);
    assert Frame(m)[HEADER_LENGTH..] == m.payload;
    hide HeaderBytes, ParseHeader;
  }

  // A header followed by as many bytes as it announces.
  predicate IsFrame(b: seq<Byte>) {
    ParseHeader(b).Some? && |b| == HEADER_LENGTH + ParseHeader(b).value.payloadLength
  }

  function Flatten(parts: seq<seq<Byte>>): seq<Byte> {
    if parts == [] then [] else parts[0] + Flatten(parts[1..])
  }

  // ---------------------------------------------------------------- the reader

  // Waiting for a header, or for the payload a header announced.
  datatype Reading = WaitHeader | WaitPayload(expected: Word)

  datatype Link = Link(reading: Reading, buffer: seq<Byte>, socket: seq<Byte>, delivered: seq<seq<Byte>>)

  const NEW_LINK := Link(WaitHeader, [], [], [])

  // One read that finds enough bytes, or None when it must wait. A bad header is read and dropped.
  function ReadOnce(l: Link): Option<Link> {
    match l.reading
    case WaitHeader =>
      if |l.socket| < HEADER_LENGTH then None
      else
        var header := ParseHeader(l.socket[..HEADER_LENGTH]);
        if header.None? then None
        else Some(Link(WaitPayload(header.value.payloadLength), l.socket[..HEADER_LENGTH], l.socket[HEADER_LENGTH..], l.delivered))
    case WaitPayload(n) =>
      if |l.socket| < n then None
      else Some(Link(WaitHeader, [], l.socket[n..], l.delivered + [l.buffer + l.socket[..n]]))
  }

  // What a read that must wait, or that fails, leaves behind.
  function Stall(l: Link): Link {
    if l.reading.WaitPayload? then l
    else if |l.socket| < HEADER_LENGTH then l.(buffer := [])
    else l.(buffer := l.socket[..HEADER_LENGTH], socket := l.socket[HEADER_LENGTH..])
  }

  function Effort(l: Link): nat {
    2 * |l.socket| + if l.reading.WaitPayload? then 1 else 0
  }

  // The slot: it triggers itself again while bytes remain or an empty payload is due.
  function ReadyRead(l: Link): Link
    decreases Effort(l)
  {
    var next := ReadOnce(l);
    if next.None? then Stall(l)
    else if |next.value.socket| > 0 || next.value.reading == WaitPayload(0) then ReadyRead(next.value)
    else next.value
  }

  class Connection {
    var reading: Reading
    var buffer: seq<Byte>
    var socket: seq<Byte>
    var delivered: seq<seq<Byte>>

    ghost function View(): Link
      reads this
    {
      Link(reading, buffer, socket, delivered)
    }

    constructor ()
      ensures View() == NEW_LINK
    {
      reading, buffer, socket, delivered := WaitHeader, [], [], [];
    }

    // Appends exactly the expected bytes to the buffer, or reports that they have not arrived.
    method Read(expected: nat) returns (ok: bool)
      modifies this`buffer, this`socket
      ensures ok <==> 0 < expected <= |old(socket)|
      ensures ok ==> buffer == old(buffer) + old(socket)[..expected] && socket == old(socket)[expected..]
      ensures !ok ==> buffer == old(buffer) && socket == old(socket)
    {
      ok := false;
      if |socket| >= expected {
        var count := expected;
        buffer := buffer + socket[..expected];
        socket := socket[expected..];
        ok := count > 0;
        if !ok {
          assert buffer == old(buffer) && socket == old(socket);
        }
      }
    }

    method OnReadyRead()
      modifies this
      ensures View() == ReadyRead(old(View()))
      decreases Effort(View())
    {
      ghost var l := View();
      match reading {
        case WaitHeader =>
          buffer := [];
          var ok := Read(HEADER_LENGTH);
          if !ok {
            return;
          }
          assert buffer == l.socket[..HEADER_LENGTH];
          var header := Deserialize(buffer);
          if header.None? {
            return;
          }
          reading := WaitPayload(header.value.payloadLength);
        case WaitPayload(n) =>
          if n != 0 {
            var ok := Read(n);
            if !ok {
              return;
            }
          }
          assert buffer == l.buffer + l.socket[..n] && socket == l.socket[n..];
          delivered := delivered + [buffer];
          buffer := [];
          reading := WaitHeader;
      }
      assert Some(View()) == ReadOnce(l);
      ReadyReadIs(l, View());
      if |socket| > 0 || reading == WaitPayload(0) {
        OnReadyRead();
      }
    }

    method Receive(chunk: seq<Byte>)
      modifies this
      ensures View() == Arrive(old(View()), chunk)
    {
      socket := socket + chunk;
      OnReadyRead();
    }
  }

  // A chunk arrives and the socket says so.
  function Arrive(l: Link, chunk: seq<Byte>): Link {
    ReadyRead(l.(socket := l.socket + chunk))
  }

  function Feed(l: Link, chunks: seq<seq<Byte>>): Link
    decreases |chunks|
  {
    if chunks == [] then l else Feed(Arrive(l, chunks[0]), chunks[1..])
  }

  // ---------------------------------------------------------------- what is delivered

  // The first frame of a stream, if it is complete.
  function FirstFrame(b: seq<Byte>): (f: Option<seq<Byte>>)
    ensures f.Some? ==> IsFrame(f.value) && f.value <= b && |f.value| >= HEADER_LENGTH
  {
    var h := ParseHeader(b);
    if h.None? || |b| < HEADER_LENGTH + h.value.payloadLength then None
    else Some(b[..HEADER_LENGTH + h.value.payloadLength])
  }

  // The complete frames of a stream, and what follows them.
  function Complete(b: seq<Byte>): seq<seq<Byte>>
    decreases |b|
  {
    var f := FirstFrame(b);
    if f.None? then [] else [f.value] + Complete(b[|f.value|..])
  }

  function Rest(b: seq<Byte>): seq<Byte>
    decreases |b|
  {
    var f := FirstFrame(b);
    if f.None? then b else Rest(b[|f.value|..])
  }

  // No header of the stream is bad, as far as it has arrived.
  predicate CleanHead(b: seq<Byte>) {
    |b| >= HEADER_LENGTH ==> ParseHeader(b).Some?
  }

  predicate Clean(b: seq<Byte>)
    decreases |b|
  {
    CleanHead(b) && var f := FirstFrame(b); f.Some? ==> Clean(b[|f.value|..])
  }

  // Between activations the reader holds a header that waits for its payload, or nothing.
  predicate Steady(l: Link) {
    match l.reading
    case WaitHeader => l.buffer == []
    case WaitPayload(n) => |l.buffer| == HEADER_LENGTH && ParseHeader(l.buffer).Some? && ParseHeader(l.buffer).value.payloadLength == n
  }

  // The bytes that have arrived and are not delivered.
  function Undelivered(l: Link): seq<Byte> {
    l.buffer + l.socket
  }

  lemma HeaderOfPrefix(b: seq<Byte>)
    requires |b| >= HEADER_LENGTH
    ensures ParseHeader(b) == ParseHeader(b[..HEADER_LENGTH])
  {
    var h := b[..HEADER_LENGTH];
    assert b[..4] == h[..4] && b[4..8] == h[4..8] && b[8..12] == h[8..12] && b[12..16] == h[12..16];
  }

  // What is still to come out of a state.
  ghost predicate SameOutcome(l: Link, l': Link) {
    && l'.delivered + Complete(Undelivered(l')) == l.delivered + Complete(Undelivered(l))
    && Rest(Undelivered(l')) == Rest(Undelivered(l))
  }

  lemma HeaderStep(l: Link)
    requires l.reading.WaitHeader? && Steady(l) && ParseHeader(l.socket).Some?
    ensures ReadOnce(l).Some?
    ensures var l' := ReadOnce(l).value;
      Steady(l') && Undelivered(l') == Undelivered(l) && l'.delivered == l.delivered
  {
    assert Undelivered(l) == l.socket;
    HeaderOfPrefix(l.socket);
    assert l.socket[..HEADER_LENGTH] + l.socket[HEADER_LENGTH..] == l.socket;
    hide ParseHeader, Clean, Complete, Rest;
  }

  lemma HeadOf(l: Link)
    requires l.reading.WaitPayload? && Steady(l)
    ensures FirstFrame(Undelivered(l)) ==
      if |l.socket| < l.reading.expected then None else Some(l.buffer + l.socket[..l.reading.expected])
  {
    var b, n := Undelivered(l), l.reading.expected;
    HeaderOfPrefix(b);
    assert b[..HEADER_LENGTH] == l.buffer;
    if |l.socket| >= n {
      assert b[..HEADER_LENGTH + n] == l.buffer + l.socket[..n];
    }
    hide ParseHeader;
  }

  lemma PayloadStep(l: Link)
    requires l.reading.WaitPayload? && Steady(l) && Clean(Undelivered(l)) && |l.socket| >= l.reading.expected
    ensures ReadOnce(l).Some?
    ensures var l' := ReadOnce(l).value;
      Steady(l') && Clean(Undelivered(l')) && SameOutcome(l, l')
  {
    hide *;
    var n := l.reading.expected;
    var frame, rest := l.buffer + l.socket[..n], l.socket[n..];
    PayloadRead(l);
    var l' := ReadOnce(l).value;
    HeadOf(l);
    FramesStep(frame, rest);
    assert l.delivered + [frame] + Complete(rest) == l.delivered + ([frame] + Complete(rest));
    SameFrom(l, l');
    SteadyIdle(l');
  }

  lemma PayloadRead(l: Link)
    requires l.reading.WaitPayload? && |l.socket| >= l.reading.expected
    ensures var n := l.reading.expected;
      var frame, rest := l.buffer + l.socket[..n], l.socket[n..];
      var l' := Link(WaitHeader, [], rest, l.delivered + [frame]);
      ReadOnce(l) == Some(l') && Undelivered(l) == frame + rest && Undelivered(l') == rest
  {
    assert l.socket == l.socket[..l.reading.expected] + l.socket[l.reading.expected..];
  }

  lemma SteadyIdle(l: Link)
    requires l.reading == WaitHeader && l.buffer == []
    ensures Steady(l)
  {
  }

  lemma SameFrom(l: Link, l': Link)
    requires l'.delivered + Complete(Undelivered(l')) == l.delivered + Complete(Undelivered(l))
    requires Rest(Undelivered(l')) == Rest(Undelivered(l))
    ensures SameOutcome(l, l')
  {
  }

  lemma FramesStep(frame: seq<Byte>, rest: seq<Byte>)
    requires FirstFrame(frame + rest) == Some(frame)
    ensures Complete(frame + rest) == [frame] + Complete(rest) && Rest(frame + rest) == Rest(rest)
    ensures Clean(frame + rest) ==> Clean(rest)
  {
    assert (frame + rest)[|frame|..] == rest;
    hide FirstFrame;
  }

  // A reader that waits has delivered every complete frame.
  lemma Waiting(l: Link)
    requires Steady(l)
    requires if l.reading.WaitPayload? then |l.socket| < l.reading.expected else |l.socket| < HEADER_LENGTH
    ensures Complete(Undelivered(l)) == [] && Rest(Undelivered(l)) == Undelivered(l)
  {
    if l.reading.WaitPayload? {
      HeadOf(l);
    }
  }

  lemma {:induction false} ReadyReadDelivers(l: Link)
    requires Steady(l) && Clean(Undelivered(l))
    ensures var l' := ReadyRead(l);
      && Steady(l')
      && l'.delivered == l.delivered + Complete(Undelivered(l))
      && Undelivered(l') == Rest(Undelivered(l))
    decreases Effort(l)
  {
    if l.reading.WaitPayload? {
      if |l.socket| < l.reading.expected {
        Waiting(l);
      } else {
        PayloadStep(l);
        Onward(l, ReadOnce(l).value);
      }
    } else if |l.socket| < HEADER_LENGTH {
      Waiting(l);
    } else {
      CleanStart(l);
      HeaderStep(l);
      Onward(l, ReadOnce(l).value);
    }
  }

  lemma CleanStart(l: Link)
    requires l.reading.WaitHeader? && Steady(l) && Clean(Undelivered(l)) && |l.socket| >= HEADER_LENGTH
    ensures ParseHeader(l.socket).Some?
  {
    assert Undelivered(l) == l.socket;
  }

  // The self-triggered read after a step that found its bytes.
  lemma {:induction false} Onward(l: Link, l': Link)
    requires Steady(l') && Clean(Undelivered(l')) && SameOutcome(l, l')
    requires ReadOnce(l) == Some(l') && Effort(l') < Effort(l)
    ensures var l'' := ReadyRead(l);
      && Steady(l'')
      && l''.delivered == l.delivered + Complete(Undelivered(l))
      && Undelivered(l'') == Rest(Undelivered(l))
    decreases Effort(l), 0
  {
    hide ReadyRead, ReadOnce, Complete, Rest, Clean, Steady, SameOutcome, Undelivered, Effort;
    ReadyReadIs(l, l');
    SameParts(l, l');
    if |l'.socket| > 0 || l'.reading == WaitPayload(0) {
      ReadyReadDelivers(l');
    } else {
      Waiting(l');
      assert l'.delivered + [] == l'.delivered;
    }
  }

  lemma ReadyReadIs(l: Link, l': Link)
    requires ReadOnce(l) == Some(l')
    ensures ReadyRead(l) == if |l'.socket| > 0 || l'.reading == WaitPayload(0) then ReadyRead(l') else l'
  {
    hide ReadOnce;
  }

  lemma SameParts(l: Link, l': Link)
    requires SameOutcome(l, l')
    ensures l'.delivered + Complete(Undelivered(l')) == l.delivered + Complete(Undelivered(l))
    ensures Rest(Undelivered(l')) == Rest(Undelivered(l))
  {
  }

  // ---------------------------------------------------------------- any split into chunks

  lemma {:induction false} CompleteGrows(b: seq<Byte>, more: seq<Byte>)
    requires Clean(b + more)
    ensures Clean(b) && Clean(Rest(b) + more)
    ensures Complete(b + more) == Complete(b) + Complete(Rest(b) + more)
    ensures Rest(b + more) == Rest(Rest(b) + more)
    decreases |b|
  {
    hide *;
    if FirstFrame(b).None? {
      CleanWaits(b, more);
    } else {
      var frame := FirstFrame(b).value;
      var rest := b[|frame|..];
      FirstSplits(b);
      FirstGrows(b, more);
      assert b + more == frame + (rest + more);
      FramesStep(frame, rest);
      FramesStep(frame, rest + more);
      CleanCons(frame, rest);
      CompleteGrows(rest, more);
      assert [frame] + (Complete(rest) + Complete(Rest(rest) + more)) == [frame] + Complete(rest) + Complete(Rest(rest) + more);
    }
  }

  lemma FirstSplits(b: seq<Byte>)
    requires FirstFrame(b).Some?
    ensures var frame := FirstFrame(b).value;
      b == frame + b[|frame|..] && |frame| > 0
  {
  }

  // A complete first frame stays the first frame.
  lemma FirstGrows(b: seq<Byte>, more: seq<Byte>)
    ensures FirstFrame(b).Some? ==> FirstFrame(b + more) == FirstFrame(b)
  {
    if FirstFrame(b).Some? {
      HeaderOfPrefix(b);
      HeaderOfPrefix(b + more);
      assert (b + more)[..HEADER_LENGTH] == b[..HEADER_LENGTH];
      var n := HEADER_LENGTH + ParseHeader(b).value.payloadLength;
      assert (b + more)[..n] == b[..n];
    }
  }

  lemma CleanWaits(b: seq<Byte>, more: seq<Byte>)
    requires Clean(b + more) && FirstFrame(b).None?
    ensures Clean(b) && Complete(b) == [] && Rest(b) == b
  {
    if |b| >= HEADER_LENGTH {
      HeaderOfPrefix(b);
      HeaderOfPrefix(b + more);
      assert (b + more)[..HEADER_LENGTH] == b[..HEADER_LENGTH];
    }
  }

  lemma CleanCons(frame: seq<Byte>, rest: seq<Byte>)
    requires FirstFrame(frame + rest) == Some(frame)
    ensures Clean(frame + rest) <==> Clean(rest)
  {
    assert (frame + rest)[|frame|..] == rest;
  }

  // However the bytes are cut into chunks, the frames delivered are the complete frames of the whole,
  // in order, and every byte is delivered or still held.
  lemma {:induction false} FeedDelivers(l: Link, chunks: seq<seq<Byte>>)
    requires Steady(l) && Clean(Undelivered(l) + Flatten(chunks)) && Complete(Undelivered(l)) == []
    ensures var l' := Feed(l, chunks);
      && Steady(l')
      && l'.delivered == l.delivered + Complete(Undelivered(l) + Flatten(chunks))
      && Undelivered(l') == Rest(Undelivered(l) + Flatten(chunks))
      && Complete(Undelivered(l')) == []
    decreases |chunks|, 0
  {
    hide *;
    FeedIs(l, chunks);
    if chunks == [] {
      assert Undelivered(l) + [] == Undelivered(l);
      RestOfWaiting(Undelivered(l));
      assert l.delivered + [] == l.delivered;
    } else {
      var chunk, later := chunks[0], Flatten(chunks[1..]);
      assert Undelivered(l) + (chunk + later) == Undelivered(l) + chunk + later;
      FeedOn(l, chunk, chunks[1..]);
    }
  }

  // One chunk, then the others.
  lemma {:induction false} FeedOn(l: Link, chunk: seq<Byte>, chunks: seq<seq<Byte>>)
    requires Steady(l) && Clean(Undelivered(l) + chunk + Flatten(chunks))
    ensures var l', b := Feed(Arrive(l, chunk), chunks), Undelivered(l) + chunk + Flatten(chunks);
      && Steady(l')
      && l'.delivered == l.delivered + Complete(b)
      && Undelivered(l') == Rest(b)
      && Complete(Undelivered(l')) == []
    decreases |chunks|, 1
  {
    hide *;
    var b, later := Undelivered(l) + chunk, Flatten(chunks);
    ArriveDelivers(l, chunk, later);
    CompleteGrows(b, later);
    FeedDelivers(Arrive(l, chunk), chunks);
    assert l.delivered + Complete(b) + Complete(Rest(b) + later) == l.delivered + (Complete(b) + Complete(Rest(b) + later));
  }

  lemma FeedIs(l: Link, chunks: seq<seq<Byte>>)
    ensures Feed(l, chunks) == if chunks == [] then l else Feed(Arrive(l, chunks[0]), chunks[1..])
    ensures Flatten(chunks) == if chunks == [] then [] else chunks[0] + Flatten(chunks[1..])
  {
    hide Arrive;
  }

  lemma RestOfWaiting(b: seq<Byte>)
    requires Complete(b) == []
    ensures Rest(b) == b
  {
  }

  lemma {:induction false} RestIsIncomplete(b: seq<Byte>)
    ensures Complete(Rest(b)) == []
    decreases |b|
  {
    if FirstFrame(b).Some? {
      RestIsIncomplete(b[|FirstFrame(b).value|..]);
    }
  }

  lemma ArriveDelivers(l: Link, chunk: seq<Byte>, later: seq<Byte>)
    requires Steady(l) && Clean(Undelivered(l) + chunk + later)
    ensures var l', b := Arrive(l, chunk), Undelivered(l) + chunk;
      && Steady(l')
      && l'.delivered == l.delivered + Complete(b)
      && Undelivered(l') == Rest(b)
      && Complete(Rest(b)) == []
  {
    var fed, b := l.(socket := l.socket + chunk), Undelivered(l) + chunk;
    assert Undelivered(fed) == b && Steady(fed);
    CompleteGrows(b, later);
    hide *;
    ArriveIs(l, chunk);
    ReadyReadDelivers(fed);
    RestIsIncomplete(b);
  }

  lemma ArriveIs(l: Link, chunk: seq<Byte>)
    ensures Arrive(l, chunk) == ReadyRead(l.(socket := l.socket + chunk))
  {
  }

  // ---------------------------------------------------------------- a stream of frames

  // Bytes are neither lost nor duplicated.
  lemma {:induction false} NothingLost(b: seq<Byte>)
    ensures Flatten(Complete(b)) + Rest(b) == b
    decreases |b|
  {
    hide *;
    if FirstFrame(b).Some? {
      var frame := FirstFrame(b).value;
      var rest := b[|frame|..];
      FirstSplits(b);
      FramesStep(frame, rest);
      NothingLost(rest);
      FlattenCons(frame, Complete(rest));
      assert frame + (Flatten(Complete(rest)) + Rest(rest)) == frame + Flatten(Complete(rest)) + Rest(rest);
    } else {
      NoFrame(b);
      FlattenNone();
    }
  }

  lemma NoFrame(b: seq<Byte>)
    requires FirstFrame(b).None?
    ensures Complete(b) == [] && Rest(b) == b
  {
    hide FirstFrame;
  }

  lemma FlattenCons(x: seq<Byte>, xs: seq<seq<Byte>>)
    ensures Flatten([x] + xs) == x + Flatten(xs)
  {
    assert ([x] + xs)[1..] == xs;
  }

  lemma FrameFirst(frame: seq<Byte>, rest: seq<Byte>)
    requires IsFrame(frame)
    ensures FirstFrame(frame + rest) == Some(frame)
  {
    HeaderOfPrefix(frame);
    HeaderOfPrefix(frame + rest);
    assert (frame + rest)[..HEADER_LENGTH] == frame[..HEADER_LENGTH];
    assert (frame + rest)[..|frame|] == frame;
  }

  // Any prefix of a stream of frames is clean, and its complete frames are the leading ones.
  lemma {:induction false} FramesOf(frames: seq<seq<Byte>>, k: nat) returns (m: nat)
    requires forall i :: 0 <= i < |frames| ==> IsFrame(frames[i])
    requires k <= |Flatten(frames)|
    ensures Clean(Flatten(frames)[..k])
    ensures m <= |frames| && Complete(Flatten(frames)[..k]) == frames[..m]
    ensures |Flatten(frames[..m])| <= k && (m < |frames| ==> k < |Flatten(frames[..m + 1])|)
    decreases |frames|
  {
    hide *;
    FlattenIs(frames);
    if frames == [] || k < |frames[0]| {
      m := 0;
      FramesCut(frames, k);
    } else {
      var frame, rest := frames[0], frames[1..];
      m := FramesOf(rest, k - |frame|);
      var tail := Flatten(rest)[..k - |frame|];
      assert Flatten(frames)[..k] == frame + tail;
      FrameFirst(frame, tail);
      FramesStep(frame, tail);
      CleanCons(frame, tail);
      FlattenFirst(frames, m);
      m := m + 1;
    }
  }

  lemma FlattenIs(parts: seq<seq<Byte>>)
    ensures Flatten(parts) == if parts == [] then [] else parts[0] + Flatten(parts[1..])
  {
  }

  lemma FlattenFirst(parts: seq<seq<Byte>>, m: nat)
    requires m < |parts|
    ensures parts[..m + 1] == [parts[0]] + parts[1..][..m]
    ensures |Flatten(parts[..m + 1])| == |parts[0]| + |Flatten(parts[1..][..m])|
    ensures m + 1 < |parts| ==> |Flatten(parts[..m + 2])| == |parts[0]| + |Flatten(parts[1..][..m + 1])|
  {
    FlattenCons(parts[0], parts[1..][..m]);
    assert parts[..m + 1] == [parts[0]] + parts[1..][..m];
    if m + 1 < |parts| {
      FlattenCons(parts[0], parts[1..][..m + 1]);
      assert parts[..m + 2] == [parts[0]] + parts[1..][..m + 1];
    }
  }

  // A stream cut within its first frame has no complete frame yet.
  lemma FramesCut(frames: seq<seq<Byte>>, k: nat)
    requires forall i :: 0 <= i < |frames| ==> IsFrame(frames[i])
    requires k <= |Flatten(frames)| && (frames != [] ==> k < |frames[0]|)
    ensures Clean(Flatten(frames)[..k]) && Complete(Flatten(frames)[..k]) == []
    ensures Complete(Flatten(frames)[..k]) == frames[..0] && |Flatten(frames[..0])| == 0
    ensures frames != [] ==> |Flatten(frames[..1])| == |frames[0]|
  {
    if frames != [] {
      var frame := frames[0];
      FlattenIs(frames);
      FlattenCons(frame, []);
      assert frames[..1] == [frame] + [];
      assert Flatten(frames)[..k] == frame[..k];
      CutFrame(frame, k);
    }
  }

  lemma CutFrame(frame: seq<Byte>, k: nat)
    requires IsFrame(frame) && k < |frame|
    ensures Clean(frame[..k]) && Complete(frame[..k]) == []
  {
    if k >= HEADER_LENGTH {
      HeaderOfPrefix(frame);
      HeaderOfPrefix(frame[..k]);
      assert frame[..k][..HEADER_LENGTH] == frame[..HEADER_LENGTH];
      hide ParseHeader;
    }
  }

  // A new connection fed any chunks of any stream of frames, whole or cut off anywhere, has delivered
  // exactly the frames that arrived complete.
  lemma StreamDelivered(frames: seq<seq<Byte>>, chunks: seq<seq<Byte>>) returns (m: nat)
    requires forall i :: 0 <= i < |frames| ==> IsFrame(frames[i])
    requires Flatten(chunks) <= Flatten(frames)
    ensures m <= |frames| && Feed(NEW_LINK, chunks).delivered == frames[..m]
    ensures |Flatten(frames[..m])| <= |Flatten(chunks)| && (m < |frames| ==> |Flatten(chunks)| < |Flatten(frames[..m + 1])|)
    ensures Flatten(Feed(NEW_LINK, chunks).delivered) + Undelivered(Feed(NEW_LINK, chunks)) == Flatten(chunks)
  {
    var k := |Flatten(chunks)|;
    assert Flatten(frames)[..k] == Flatten(chunks);
    assert Undelivered(NEW_LINK) == [] && Steady(NEW_LINK) && Complete([]) == [];
    assert [] + Flatten(chunks) == Flatten(chunks) && NEW_LINK.delivered == [];
    hide *;
    m := FramesOf(frames, k);
    FeedDelivers(NEW_LINK, chunks);
    NothingLost(Flatten(chunks));
    assert [] + frames[..m] == frames[..m];
  }

  // From sender to receiver: serialised messages come out whole, in order, with type, client and payload.
  lemma EndToEnd(messages: seq<Message>, chunks: seq<seq<Byte>>)
    requires forall i :: 0 <= i < |messages| ==> |messages[i].payload| < 0x1_0000_0000
    requires Flatten(chunks) == Flatten(Frames(messages))
    ensures var received := Feed(NEW_LINK, chunks).delivered;
      |received| == |messages| && forall i :: 0 <= i < |messages| ==> Unframe(received[i]) == Some(messages[i])
  {
    var frames := Frames(messages);
    forall i | 0 <= i < |messages| ensures IsFrame(frames[i]) && Unframe(frames[i]) == Some(messages[i]) {
      FrameRoundTrip(messages[i]);
    }
    hide Frames, Flatten, Feed, Unframe, IsFrame;
    var m := StreamDelivered(frames, chunks);
    if m < |frames| {
      AllThere(frames, m);
    }
    assert m == |frames| && frames[..m] == frames;
  }

  function Frames(messages: seq<Message>): (frames: seq<seq<Byte>>)
    ensures |frames| == |messages| && forall i :: 0 <= i < |messages| ==> frames[i] == Frame(messages[i])
  {
    seq(|messages|, i requires 0 <= i < |messages| => Frame(messages[i]))
  }

  lemma {:induction false} AllThere(parts: seq<seq<Byte>>, m: nat)
    requires m < |parts|
    ensures |Flatten(parts[..m + 1])| <= |Flatten(parts)|
    decreases m
  {
    FlattenIs(parts);
    FlattenFirst(parts, m);
    hide Flatten;
    if m > 0 {
      AllThere(parts[1..], m - 1);
    } else {
      assert parts[1..][..0] == [];
      FlattenNone();
    }
  }

  lemma FlattenNone()
    ensures Flatten([]) == []
  {
  }

  // ---------------------------------------------------------------- a bad header

  // The bytes of a connection: delivered, held in the buffer or waiting in the socket.
  function Bytes(l: Link): nat {
    |Flatten(l.delivered)| + |Undelivered(l)|
  }

  lemma {:induction false} FlattenSnoc(xs: seq<seq<Byte>>, x: seq<Byte>)
    ensures Flatten(xs + [x]) == Flatten(xs) + x
  {
    if xs == [] {
      FlattenCons(x, []);
      assert xs + [x] == [x] + [];
    } else {
      assert xs == [xs[0]] + xs[1..] && xs + [x] == [xs[0]] + (xs[1..] + [x]);
      FlattenCons(xs[0], xs[1..]);
      FlattenCons(xs[0], xs[1..] + [x]);
      FlattenSnoc(xs[1..], x);
    }
  }

  // Reading a header starts by clearing the buffer, and what was left in it is gone.
  function Cleared(l: Link): nat {
    if l.reading.WaitHeader? then |l.buffer| else 0
  }

  lemma ReadOnceBytes(l: Link)
    ensures ReadOnce(l).Some? ==> Bytes(ReadOnce(l).value) == Bytes(l) - Cleared(l)
    ensures Bytes(Stall(l)) == Bytes(l) - Cleared(l)
  {
    if l.reading.WaitPayload? && |l.socket| >= l.reading.expected {
      FlattenSnoc(l.delivered, l.buffer + l.socket[..l.reading.expected]);
    }
    hide Flatten, ParseHeader;
  }

  // No reader makes up bytes, and one that was left with a bad header loses it.
  lemma {:induction false} ReadyReadBytes(l: Link)
    ensures Bytes(ReadyRead(l)) <= Bytes(l) - Cleared(l)
    decreases Effort(l)
  {
    ReadOnceBytes(l);
    var next := ReadOnce(l);
    if next.Some? && (|next.value.socket| > 0 || next.value.reading == WaitPayload(0)) {
      ReadyReadBytes(next.value);
      ReadyReadIs(l, next.value);
    }
    hide Bytes, Stall, ParseHeader;
  }

  // A stream with a bad header leaves the reader holding it, wherever in the stream it is.
  lemma {:induction false} BadHeaderHeld(l: Link)
    requires Steady(l) && !Clean(Undelivered(l))
    ensures var l' := ReadyRead(l); l'.reading == WaitHeader && |l'.buffer| == HEADER_LENGTH
    decreases Effort(l)
  {
    DirtyHead(l);
    if l.reading.WaitPayload? {
      hide *;
      var n := l.reading.expected;
      var frame, rest := l.buffer + l.socket[..n], l.socket[n..];
      PayloadRead(l);
      HeadOf(l);
      CleanCons(frame, rest);
      var l' := ReadOnce(l).value;
      SteadyIdle(l');
      DirtyHead(l');
      ReadSpends(l, l');
      ReadyReadIs(l, l');
      BadHeaderHeld(l');
    } else if ParseHeader(l.socket).Some? {
      hide *;
      HeaderStep(l);
      var l' := ReadOnce(l).value;
      DirtyHead(l');
      ReadSpends(l, l');
      ReadyReadIs(l, l');
      BadHeaderHeld(l');
    } else {
      HeaderOfPrefix(l.socket);
    }
  }

  // What is at hand when a bad header is still to come: a whole header, or a whole payload.
  lemma DirtyHead(l: Link)
    requires Steady(l) && !Clean(Undelivered(l))
    ensures if l.reading.WaitPayload? then |l.socket| >= l.reading.expected && |l.socket| > 0 else |l.socket| >= HEADER_LENGTH
  {
    var b := Undelivered(l);
    if l.reading.WaitPayload? {
      HeadOf(l);
      HeaderOfPrefix(b);
      assert b[..HEADER_LENGTH] == l.buffer;
      assert b == l.buffer + l.socket;
    } else {
      assert b == l.socket;
    }
  }

  lemma ReadSpends(l: Link, l': Link)
    requires ReadOnce(l) == Some(l')
    ensures Effort(l') < Effort(l)
  {
  }

  // The next chunk, whatever it is, costs the sixteen bytes.
  lemma BadHeaderLost(b: seq<Byte>, next: seq<Byte>)
    requires !Clean(b)
    ensures Bytes(Feed(NEW_LINK, [b, next])) <= |b| + |next| - HEADER_LENGTH
  {
    var first := NEW_LINK.(socket := [] + b);
    var held := ReadyRead(first);
    assert Undelivered(first) == b && Steady(first) && Bytes(first) == |b|;
    assert Feed(NEW_LINK, [b, next]) == ReadyRead(held.(socket := held.socket + next)) by {
      FeedIs(NEW_LINK, [b, next]);
      FeedIs(held, [next]);
      FeedIs(Arrive(held, next), []);
      assert [b, next][1..] == [next] && [next][1..] == [];
    }
    ReadyReadBytes(first);
    BadHeaderHeld(first);
    ReadyReadBytes(held.(socket := held.socket + next));
    hide ReadyRead, Feed, Flatten;
  }

  // What a connection has received is delivered or still held.
  ghost predicate Kept(chunks: seq<seq<Byte>>) {
    var l := Feed(NEW_LINK, chunks);
    Flatten(l.delivered) + Undelivered(l) == Flatten(chunks)
  }

  // Bytes are kept for every way of cutting a stream into chunks if and only if none of its headers is bad.
  lemma BytesKeptIff(b: seq<Byte>)
    ensures (forall chunks :: Flatten(chunks) == b ==> Kept(chunks)) <==> Clean(b)
  {
    if Clean(b) {
      forall chunks | Flatten(chunks) == b ensures Kept(chunks) {
        CleanKept(chunks);
      }
    } else {
      var none: seq<Byte> := [];
      var chunks := [b, none];
      FlattenCons(b, [none]);
      FlattenCons(none, []);
      assert chunks == [b] + [none] && [none] == [none] + [] && b + (none + none) == b;
      BadHeaderLost(b, none);
      assert !Kept(chunks);
    }
  }

  lemma CleanKept(chunks: seq<seq<Byte>>)
    requires Clean(Flatten(chunks))
    ensures Kept(chunks)
  {
    assert Undelivered(NEW_LINK) == [] && Steady(NEW_LINK) && Complete([]) == [];
    assert [] + Flatten(chunks) == Flatten(chunks) && NEW_LINK.delivered == [];
    assert [] + Complete(Flatten(chunks)) == Complete(Flatten(chunks));
    hide Feed, Flatten, Complete, Rest, Clean;
    FeedDelivers(NEW_LINK, chunks);
    NothingLost(Flatten(chunks));
  }
}
