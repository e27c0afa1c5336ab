/**
 * The client's receive loop (web/transport.js): bytes arrive in chunks of any size, are buffered, and are taken frame
 * by frame; fragments are joined, pings answered. The loop is proved to compute a function of the bytes alone, and on
 * the bytes of any frame sequence that function is the list of messages RFC 6455 says were sent.
 */
module WebSocketReceive {
  import opened Prelude
  import opened WebSocketFrames

  // ----- The bytes as one stream -------------------------------------------------------------------------

  function Concat(chunks: seq<seq<byte>>): seq<byte> {
    if chunks == [] then [] else chunks[0] + Concat(chunks[1..])
  }

  const TWO_53: nat := 0x20_0000_0000_0000

  /** The spacing of doubles at `n`. */
  function Spacing(n: nat): (u: nat)
    ensures u > 0
  {
    if n < TWO_53 then 1 else 2 * Spacing(n / 2)
  }

  /** `Number(bigint)`: the nearest double, ties to even. */
  function ToNumber(n: nat): nat {
    var u := Spacing(n);
    var q, r := n / u, n % u;
    if 2 * r < u || (2 * r == u && q % 2 == 0) then q * u else (q + 1) * u
  }

  lemma SmallNumbersExact(n: nat)
    requires n < TWO_53
    ensures ToNumber(n) == n
  {
  }

  const CLOSE: nat := 0x8
  const PING: nat := 0x9
  const PONG: nat := 0xA

  /** One frame as the loop cuts it off the front; the mask bit and the reserved bits are not looked at. */
  datatype Cut = Cut(fin: bool, opcode: nat, payload: seq<byte>, size: nat)

  /** The payload length, in whichever of the three forms the second byte announces. */
  function FrameLength(bytes: seq<byte>): nat
    requires |bytes| >= 2 && |bytes| >= 2 + ExtendedBytes(bytes[1] % 128)
  {
    if bytes[1] % 128 == 127 then ToNumber(Value(bytes[2..10])) else PayloadLength(bytes)
  }

  function CutFrame(bytes: seq<byte>): (cut: Option<Cut>)
    ensures cut.Some? ==> 2 <= cut.value.size <= |bytes|
  {
    if |bytes| < 2 then None
    else
      var fin, opcode, off := bytes[0] >= 128, bytes[0] % 16, 2 + ExtendedBytes(bytes[1] % 128);
      if |bytes| < off then None
      else
        var length := FrameLength(bytes);
        if |bytes| < off + length then None
        else Some(Cut(fin, opcode, bytes[off..off + length], off + length))
  }

  datatype Received = Received(lines: seq<string>, pongs: seq<seq<byte>>)

  function Line(decode: seq<byte> -> string, message: seq<byte>): seq<string> {
    if decode(message) == "" then [] else [decode(message)]
  }

  /** What the loop delivers and answers from a stream, with `assembled` already received of an open message. */
  function Receive(bytes: seq<byte>, assembled: seq<byte>, decode: seq<byte> -> string): Received
    decreases |bytes|
  {
    var cut := CutFrame(bytes);
    if cut.None? || cut.value.opcode == CLOSE then Received([], [])
    else
      var frame, rest := cut.value, bytes[cut.value.size..];
      if frame.opcode == PING then
        var later := Receive(rest, assembled, decode);
        later.(pongs := [frame.payload] + later.pongs)
      else if frame.opcode == PONG then Receive(rest, assembled, decode)
      else if frame.fin then
        var later := Receive(rest, [], decode);
        later.(lines := Line(decode, assembled + frame.payload) + later.lines)
      else Receive(rest, assembled + frame.payload, decode)
  }

  // ----- The buffer and the loop -------------------------------------------------------------------------

  class BufferedIo {
    /** What the reader has still to yield; it reports the end when nothing is left. */
    var chunks: seq<seq<byte>>
    var buf: seq<byte>

    ghost function Stream(): seq<byte>
      reads this
    {
      buf + Concat(chunks)
    }

    constructor (chunks: seq<seq<byte>>)
      ensures Stream() == Concat(chunks)
    {
      this.chunks := chunks;
      this.buf := [];
    }

    /** Appends the next chunk; fails at the end of the stream. */
    method Pull() returns (ok: bool)
      modifies this
      ensures Stream() == old(Stream()) && ok == (old(chunks) != [])
      ensures ok ==> chunks == old(chunks)[1..] && buf == old(buf) + old(chunks)[0]
      ensures !ok ==> chunks == [] && buf == old(buf)
    {
      ok := chunks != [];
      if ok {
        assert buf + Concat(chunks) == (buf + chunks[0]) + Concat(chunks[1..]);
        buf := buf + chunks[0];
        chunks := chunks[1..];
      }
    }

    /** Waits for `n` buffered bytes; fails when the stream ends first. */
    method Need(n: nat) returns (ok: bool)
      modifies this
      ensures Stream() == old(Stream()) && ok == (|Stream()| >= n)
      ensures ok ==> |buf| >= n
    {
      ok := true;
      while ok && |buf| < n
        invariant Stream() == old(Stream()) && (!ok ==> chunks == [] && |buf| < n)
        decreases ok, |chunks|
      {
        ok := Pull();
      }
    }

    method Take(n: nat) returns (out: seq<byte>)
      requires n <= |buf|
      modifies this
      ensures out == old(Stream())[..n] && Stream() == old(Stream())[n..]
      ensures buf == old(buf)[n..]
    {
      out := buf[..n];
      buf := buf[n..];
      assert old(Stream())[..n] == out;
      assert old(Stream())[n..] == buf + Concat(chunks);
    }
  }

  /** Waits for the bytes of the length field, if there are any, and reads it. */
  method ReadLength(io: BufferedIo) returns (ok: bool, off: nat, length: nat)
    requires |io.buf| >= 2
    modifies io
    ensures io.Stream() == old(io.Stream()) && off == 2 + ExtendedBytes(io.Stream()[1] % 128)
    ensures ok == (|io.Stream()| >= off) && (ok ==> length == FrameLength(io.Stream()))
  {
    hide ToNumber, Value;
    ghost var stream := io.Stream();
    assert stream[1] == io.buf[1];
    ok, off, length := true, 2, io.buf[1] % 128;
    if length == 126 {
      off := 4;
      ok := io.Need(4);
      if ok {
        length := 256 * (io.buf[2] as nat) + io.buf[3] as nat;
        TwoByteValue(stream, io.buf);
      }
    } else if length == 127 {
      off := 10;
      ok := io.Need(10);
      if ok {
        assert io.buf[2..10] == stream[2..10];
        length := ToNumber(Value(io.buf[2..10]));
      }
    }
  }

  /** The head of the loop: waits for one whole frame and takes it, or fails when the stream ends first. */
  method NextFrame(io: BufferedIo) returns (frame: Option<Cut>)
    modifies io
    ensures frame == CutFrame(old(io.Stream()))
    ensures frame.Some? ==> io.Stream() == old(io.Stream())[frame.value.size..]
  {
    hide FrameLength;
    ghost var stream := io.Stream();
    var ok := io.Need(2);
    if !ok { return None; }
    assert stream[0] == io.buf[0] && stream[1] == io.buf[1];
    var fin, opcode := io.buf[0] >= 128, io.buf[0] % 16;
    var off, length;
    ok, off, length := ReadLength(io);
    if !ok { return None; }
    ok := io.Need(off + length);
    if !ok { return None; }
    var _ := io.Take(off);
    var payload := io.Take(length);
    frame := Some(Cut(fin, opcode, payload, off + length));
    assert payload == stream[off..off + length];
    assert io.Stream() == stream[off + length..];
  }

  /** The loop: what it delivers and answers depends on the bytes only, not on how they were chunked. */
  method ReceiveLoop(io: BufferedIo, decode: seq<byte> -> string) returns (received: Received)
    modifies io
    ensures received == Receive(old(io.Stream()), [], decode)
  {
    hide CutFrame;
    var lines, pongs := [], [];
    var assembled: seq<byte> := [];
    ghost var whole := Receive(io.Stream(), [], decode);
    while true
      invariant var later := Receive(io.Stream(), assembled, decode);
                whole == Received(lines + later.lines, pongs + later.pongs)
      decreases |io.Stream()|
    {
      ghost var later := Receive(io.Stream(), assembled, decode);
      var frame := NextFrame(io);
      if frame.None? { break; }
      var payload := frame.value.payload;
      if frame.value.opcode == CLOSE { break; }
      ghost var rest := io.Stream();
      if frame.value.opcode == PING {
        assert pongs + later.pongs == (pongs + [payload]) + Receive(rest, assembled, decode).pongs;
        pongs := pongs + [payload];
        continue;
      }
      if frame.value.opcode == PONG { continue; }
      assembled := assembled + payload;
      if frame.value.fin {
        var line := decode(assembled);
        assert lines + later.lines == (lines + Line(decode, assembled)) + Receive(rest, [], decode).lines;
        assembled := [];
        if line != "" {
          lines := lines + [line];
        }
      }
    }
    received := Received(lines, pongs);
  }

  lemma TwoByteValue(stream: seq<byte>, buf: seq<byte>)
    requires 4 <= |buf| <= |stream| && stream[..|buf|] == buf
    ensures Value(stream[2..4]) == 256 * (buf[2] as nat) + buf[3] as nat
  {
    assert stream[2..4] == [buf[2], buf[3]];
    assert [buf[2], buf[3]][..1] == [buf[2]];
    assert Value([buf[2]]) == buf[2];
  }

  // ----- What a server sends -----------------------------------------------------------------------------

  datatype LengthForm = Short | Medium | Long

  /** An unmasked frame; the length may be written in any form that holds it. */
  datatype ServerFrame = ServerFrame(fin: bool, rsv: nat, opcode: nat, form: LengthForm, payload: seq<byte>)

  predicate WellFormed(f: ServerFrame) {
    && f.rsv < 8 && f.opcode < 16
    && match f.form
       case Short => |f.payload| < 126
       case Medium => |f.payload| < 65536
       case Long => |f.payload| < TWO_53
  }

  /** Section 5.2 of RFC 6455. */
  function WireHeader(f: ServerFrame): seq<byte>
    requires WellFormed(f)
  {
    var first: byte := (if f.fin then 128 else 0) + 16 * f.rsv + f.opcode;
    match f.form
    case Short => [first, |f.payload|]
    case Medium => [first, 126] + BigEndian(|f.payload|, 2)
    case Long => [first, 127] + BigEndian(|f.payload|, 8)
  }

  function Wire(f: ServerFrame): seq<byte>
    requires WellFormed(f)
  {
    WireHeader(f) + f.payload
  }

  function WireAll(frames: seq<ServerFrame>): seq<byte>
    requires forall f | f in frames :: WellFormed(f)
  {
    if frames == [] then [] else Wire(frames[0]) + WireAll(frames[1..])
  }

  /** The loop cuts exactly the frame that was written. */
  lemma WireIsCut(f: ServerFrame, rest: seq<byte>)
    requires WellFormed(f)
    ensures CutFrame(Wire(f) + rest) == Some(Cut(f.fin, f.opcode, f.payload, |Wire(f)|))
  {
    hide ToNumber, Value;
    LengthFits();
    var n, head, bytes := |f.payload|, WireHeader(f), Wire(f) + rest;
    assert bytes[|head|..|head| + n] == f.payload;
    assert bytes[0] == head[0] && bytes[1] == head[1];
    if f.form == Medium {
      assert bytes[2..4] == BigEndian(n, 2);
      BigEndianValue(n, 2);
    } else if f.form == Long {
      assert bytes[2..10] == BigEndian(n, 8);
      BigEndianValue(n, 8);
      SmallNumbersExact(n);
    }
  }

  // ----- What was sent, from the standard ----------------------------------------------------------------

  function BeforeClose(frames: seq<ServerFrame>): seq<ServerFrame> {
    if frames == [] || frames[0].opcode == CLOSE then [] else [frames[0]] + BeforeClose(frames[1..])
  }

  function HasClose(frames: seq<ServerFrame>): bool {
    exists i :: 0 <= i < |frames| && frames[i].opcode == CLOSE
  }

  function Pings(frames: seq<ServerFrame>): seq<seq<byte>> {
    if frames == [] then [] else (if frames[0].opcode == PING then [frames[0].payload] else []) + Pings(frames[1..])
  }

  /** The data frames, as final flags and payloads; control frames may stand between fragments (section 5.4). */
  function Fragments(frames: seq<ServerFrame>): seq<(bool, seq<byte>)> {
    if frames == [] then []
    else (if frames[0].opcode == CLOSE || frames[0].opcode == PING || frames[0].opcode == PONG then []
          else [(frames[0].fin, frames[0].payload)]) + Fragments(frames[1..])
  }

  /** Section 5.4: a message is cut into one or more fragments of which the last alone is final. */
  function FragmentsOf(message: seq<seq<byte>>): seq<(bool, seq<byte>)> {
    seq(|message|, i requires 0 <= i < |message| => (i == |message| - 1, message[i]))
  }

  function FragmentsOfAll(messages: seq<seq<seq<byte>>>): seq<(bool, seq<byte>)> {
    if messages == [] then [] else FragmentsOf(messages[0]) + FragmentsOfAll(messages[1..])
  }

  /** The fragments of a message whose end has not been sent. */
  function Unfinished(parts: seq<seq<byte>>): seq<(bool, seq<byte>)> {
    seq(|parts|, i requires 0 <= i < |parts| => (false, parts[i]))
  }

  function MessageLines(messages: seq<seq<seq<byte>>>, decode: seq<byte> -> string): seq<string> {
    if messages == [] then [] else Line(decode, Concat(messages[0])) + MessageLines(messages[1..], decode)
  }

  // ----- The loop delivers what was sent -------------------------------------------------------------------

  function Delivered(fragments: seq<(bool, seq<byte>)>, assembled: seq<byte>, decode: seq<byte> -> string): seq<string> {
    if fragments == [] then []
    else
      var joined := assembled + fragments[0].1;
      if fragments[0].0 then Line(decode, joined) + Delivered(fragments[1..], [], decode)
      else Delivered(fragments[1..], joined, decode)
  }

  lemma {:induction false} ReceiveFrames(frames: seq<ServerFrame>, tail: seq<byte>, assembled: seq<byte>, decode: seq<byte> -> string)
    requires forall f | f in frames :: WellFormed(f)
    requires HasClose(frames) || CutFrame(tail).None?
    ensures var received := Receive(WireAll(frames) + tail, assembled, decode);
            && received.lines == Delivered(Fragments(BeforeClose(frames)), assembled, decode)
            && received.pongs == Pings(BeforeClose(frames))
  {
    hide CutFrame, Wire, WellFormed;
    if frames == [] {
      assert [] + tail == tail;
    } else {
      var f, later := frames[0], frames[1..];
      var rest := WireAll(later) + tail;
      assert WireAll(frames) + tail == Wire(f) + rest;
      WireIsCut(f, rest);
      assert (Wire(f) + rest)[|Wire(f)|..] == rest;
      if f.opcode != CLOSE {
        assert BeforeClose(frames)[1..] == BeforeClose(later);
        assert forall g | g in later :: g in frames;
        ReceiveFrames(later, tail, assembled, decode);
        ReceiveFrames(later, tail, [], decode);
        ReceiveFrames(later, tail, assembled + f.payload, decode);
        FragmentsStep(BeforeClose(frames));
      }
    }
  }

  lemma FragmentsStep(frames: seq<ServerFrame>)
    requires frames != []
    ensures frames[0].opcode in {CLOSE, PING, PONG} ==> Fragments(frames) == Fragments(frames[1..])
    ensures frames[0].opcode !in {CLOSE, PING, PONG} ==>
              Fragments(frames) != [] && Fragments(frames)[0] == (frames[0].fin, frames[0].payload) && Fragments(frames)[1..] == Fragments(frames[1..])
    ensures frames[0].opcode != PING ==> Pings(frames) == Pings(frames[1..])
  {
  }

  lemma {:induction false} MessageDelivered(message: seq<seq<byte>>, later: seq<(bool, seq<byte>)>, assembled: seq<byte>, decode: seq<byte> -> string)
    requires message != []
    ensures Delivered(FragmentsOf(message) + later, assembled, decode)
         == Line(decode, assembled + Concat(message)) + Delivered(later, [], decode)
  {
    var all := FragmentsOf(message) + later;
    if |message| == 1 {
      assert all[1..] == later;
      assert Concat(message[1..]) == [];
      assert assembled + Concat(message) == assembled + message[0];
    } else {
      assert all[1..] == FragmentsOf(message[1..]) + later;
      MessageDelivered(message[1..], later, assembled + message[0], decode);
      assert (assembled + message[0]) + Concat(message[1..]) == assembled + Concat(message);
    }
  }

  lemma {:induction false} UnfinishedDelivered(parts: seq<seq<byte>>, assembled: seq<byte>, decode: seq<byte> -> string)
    ensures Delivered(Unfinished(parts), assembled, decode) == []
  {
    if parts != [] {
      assert Unfinished(parts)[1..] == Unfinished(parts[1..]);
      UnfinishedDelivered(parts[1..], assembled + parts[0], decode);
    }
  }

  lemma {:induction false} MessagesDelivered(messages: seq<seq<seq<byte>>>, open: seq<seq<byte>>, decode: seq<byte> -> string)
    requires forall i | 0 <= i < |messages| :: messages[i] != []
    ensures Delivered(FragmentsOfAll(messages) + Unfinished(open), [], decode) == MessageLines(messages, decode)
  {
    if messages == [] {
      assert FragmentsOfAll(messages) + Unfinished(open) == Unfinished(open);
      UnfinishedDelivered(open, [], decode);
    } else {
      var later := FragmentsOfAll(messages[1..]) + Unfinished(open);
      assert FragmentsOfAll(messages) + Unfinished(open) == FragmentsOf(messages[0]) + later;
      MessageDelivered(messages[0], later, [], decode);
      assert [] + Concat(messages[0]) == Concat(messages[0]);
      MessagesDelivered(messages[1..], open, decode);
    }
  }

  /**
   * For every frame sequence, however its bytes are chunked: when the data frames before the first close are the
   * fragments of `messages` and perhaps of one unfinished message, the lines are the messages that decode to
   * something, in order, and the pongs echo the pings in order. `tail` is what follows: anything after a close,
   * otherwise less than a whole frame.
   */
  lemma LoopDeliversMessages(chunks: seq<seq<byte>>, frames: seq<ServerFrame>, tail: seq<byte>,
                             messages: seq<seq<seq<byte>>>, open: seq<seq<byte>>, decode: seq<byte> -> string)
    requires (forall f | f in frames :: WellFormed(f)) && Concat(chunks) == WireAll(frames) + tail
    requires HasClose(frames) || CutFrame(tail).None?
    requires Fragments(BeforeClose(frames)) == FragmentsOfAll(messages) + Unfinished(open)
    requires forall i | 0 <= i < |messages| :: messages[i] != []
    ensures Receive(Concat(chunks), [], decode) == Received(MessageLines(messages, decode), Pings(BeforeClose(frames)))
  {
    ReceiveFrames(frames, tail, [], decode);
    MessagesDelivered(messages, open, decode);
  }

  /** Every sequence of data frames is the fragments of some messages and of at most one unfinished one. */
  lemma {:induction false} FragmentsRegroup(fragments: seq<(bool, seq<byte>)>) returns (messages: seq<seq<seq<byte>>>, open: seq<seq<byte>>)
    ensures fragments == FragmentsOfAll(messages) + Unfinished(open)
    ensures forall i | 0 <= i < |messages| :: messages[i] != []
  {
    messages, open := [], [];
    if fragments != [] {
      var first := fragments[0];
      messages, open := FragmentsRegroup(fragments[1..]);
      assert fragments == [first] + fragments[1..];
      if first.0 {
        assert FragmentsOf([first.1]) == [first];
        assert FragmentsOfAll([[first.1]] + messages) == [first] + FragmentsOfAll(messages) by {
          assert ([[first.1]] + messages)[1..] == messages;
        }
        messages := [[first.1]] + messages;
      } else if messages == [] {
        assert Unfinished([first.1] + open) == [first] + Unfinished(open);
        open := [first.1] + open;
      } else {
        var joined := [first.1] + messages[0];
        assert FragmentsOf(joined) == [first] + FragmentsOf(messages[0]);
        assert FragmentsOfAll([joined] + messages[1..]) == FragmentsOf(joined) + FragmentsOfAll(messages[1..]) by {
          assert ([joined] + messages[1..])[1..] == messages[1..];
        }
        messages := [joined] + messages[1..];
      }
    }
  }
}
