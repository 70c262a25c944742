/** The client side of one WebSocket, `NekoSocket` in scripts/a3-worker-guest.py (sections 5.2 to 5.5 of
    RFC 6455): building masked frames, and reading frames and fragmented messages from a byte stream that
    arrives in arbitrary chunks. */
module WebSocket {
  import opened Prelude
  import opened BigEndian

  const MAX_MESSAGE: nat := 256 * 1024

  /** A frame as its sender means it; bits the reader ignores are zero. */
  datatype Frame = Frame(fin: bool, opcode: nat, mask: Option<Bytes>, payload: Bytes)

  predicate Sendable(f: Frame) {
    f.opcode < 16 && (f.mask.Some? ==> |f.mask.value| == 4) && |f.payload| < 0x1_0000_0000_0000_0000
  }

  // ------------------------------------------------------------------------------------- masking

  /** Exclusive or of two numbers, bit by bit from the lowest. */
  function Xor(a: nat, b: nat): nat {
    if a == 0 && b == 0 then 0 else (a + b) % 2 + 2 * Xor(a / 2, b / 2)
  }

  lemma {:induction false} XorTwice(a: nat, b: nat)
    ensures Xor(Xor(a, b), b) == a
  {
    if a != 0 || b != 0 {
      XorTwice(a / 2, b / 2);
      XorHalves((a + b) % 2, Xor(a / 2, b / 2), b, Xor(a, b));
      ParityTwice(a, b);
    }
  }

  lemma XorHalves(bit: nat, high: nat, b: nat, n: nat)
    requires bit < 2 && n == bit + 2 * high
    ensures Xor(n, b) == (bit + b) % 2 + 2 * Xor(high, b / 2)
  {
    HalfAndParity(bit, high, b);
    if n == 0 && b == 0 {
      assert Xor(0, 0) == 0;
    }
  }

  lemma HalfAndParity(bit: nat, high: nat, b: nat)
    requires bit < 2
    ensures (bit + 2 * high) / 2 == high && (bit + 2 * high + b) % 2 == (bit + b) % 2
  {
  }

  lemma ParityTwice(a: nat, b: nat)
    ensures ((a + b) % 2 + b) % 2 == a % 2
  {
  }

  lemma {:induction false} XorBelow(a: nat, b: nat, bits: nat, limit: nat)
    requires a < limit && b < limit && limit == Power2(bits)
    ensures Xor(a, b) < limit
  {
    if bits > 0 && (a != 0 || b != 0) {
      assert Power2(bits) == 2 * Power2(bits - 1);
      XorBelow(a / 2, b / 2, bits - 1, Power2(bits - 1));
    }
  }

  function Power2(n: nat): nat {
    if n == 0 then 1 else 2 * Power2(n - 1)
  }

  function XorByte(a: byte, b: byte): byte {
    assert Power2(8) == 256 by {
      assert Power2(4) == 16;
    }
    XorBelow(a as nat, b as nat, 8, 256);
    Xor(a as nat, b as nat) as byte
  }

  function Masked(data: Bytes, mask: Bytes): (r: Bytes)
    requires |mask| == 4
    ensures |r| == |data|
  {
    seq(|data|, i requires 0 <= i < |data| => XorByte(data[i], mask[i % 4]))
  }

  lemma MaskingTwice(data: Bytes, mask: Bytes)
    requires |mask| == 4
    ensures Masked(Masked(data, mask), mask) == data
  {
    forall i | 0 <= i < |data|
      ensures Masked(Masked(data, mask), mask)[i] == data[i]
    {
      XorTwice(data[i] as nat, mask[i % 4] as nat);
    }
  }

  // ------------------------------------------------------------------------------ frames on the wire

  lemma Widths()
    ensures Limit(2) == 0x10000 && Limit(8) == 0x1_0000_0000_0000_0000
  {
    assert Limit(2) == 256 * Limit(1) && Limit(1) == 256 * Limit(0);
    assert Limit(4) == 256 * Limit(3) && Limit(3) == 256 * Limit(2);
    assert Limit(6) == 256 * Limit(5) && Limit(5) == 256 * Limit(4);
    assert Limit(8) == 256 * Limit(7) && Limit(7) == 256 * Limit(6);
  }

  /** The second byte and the extended length, in the shortest of the three forms. */
  function LengthField(masked: bool, n: nat): Bytes
    requires n < 0x1_0000_0000_0000_0000
  {
    Widths();
    var bit := if masked then 128 else 0;
    if n < 126 then [(bit + n) as byte]
    else if n < 0x10000 then [(bit + 126) as byte] + ToBytes(n, 2)
    else [(bit + 127) as byte] + ToBytes(n, 8)
  }

  function Body(f: Frame): Bytes
    requires Sendable(f)
  {
    if f.mask.Some? then f.mask.value + Masked(f.payload, f.mask.value) else f.payload
  }

  function Encode(f: Frame): Bytes
    requires Sendable(f)
  {
    [((if f.fin then 128 else 0) + f.opcode) as byte] + LengthField(f.mask.Some?, |f.payload|) + Body(f)
  }

  /** One frame as the reader sees it. */
  datatype Step = Incomplete | TooLarge | Got(fin: bool, opcode: nat, payload: Bytes, rest: Bytes)

  /** How many bytes follow the second one to say the length. */
  function ExtraLength(second: byte): nat {
    if second % 128 == 126 then 2 else if second % 128 == 127 then 8 else 0
  }

  /** The mask, if any, and the data, once the length is known. */
  function ReadBody(tail: Bytes, masked: bool, length: nat, fin: bool, opcode: nat): (step: Step)
    ensures step.Got? ==> |step.rest| <= |tail|
  {
    var head := if masked then 4 else 0;
    if |tail| < head + length then Incomplete
    else
      var data := tail[head..head + length];
      Got(fin, opcode, if masked then Masked(data, tail[..4]) else data, tail[head + length..])
  }

  /** One turn of `_reader`, on the bytes still to come. */
  function ReadFrame(stream: Bytes): (step: Step)
    ensures step.Got? ==> |step.rest| + 2 <= |stream|
  {
    if |stream| < 2 then Incomplete
    else
      var extra := ExtraLength(stream[1]);
      if |stream| < 2 + extra then Incomplete
      else
        var length := if extra == 0 then (stream[1] % 128) as nat else FromBytes(stream[2..2 + extra]);
        if length > MAX_MESSAGE then TooLarge
        else ReadBody(stream[2 + extra..], stream[1] >= 128, length, stream[0] >= 128, (stream[0] % 16) as nat)
  }

  lemma Sliced(head: Bytes, field: Bytes, tail: Bytes)
    ensures (head + field + tail)[|head|..|head| + |field|] == field
    ensures (head + field + tail)[|head| + |field|..] == tail
  {
  }

  lemma SecondByte(masked: bool, code: nat)
    requires code < 128
    ensures var second := ((if masked then 128 else 0) + code) as byte;
            (second >= 128 <==> masked) && (second % 128) as nat == code
  {
  }

  /** The reader finds this length in the stream, and the tail after it. */
  predicate LengthReads(stream: Bytes, first: byte, masked: bool, n: nat, tail: Bytes) {
    && |stream| >= 2 && stream[0] == first && (stream[1] >= 128 <==> masked)
    && var extra := ExtraLength(stream[1]);
    && 2 + extra <= |stream| && stream[2 + extra..] == tail
    && n == (if extra == 0 then (stream[1] % 128) as nat else FromBytes(stream[2..2 + extra]))
  }

  lemma FormReads(first: byte, second: byte, field: Bytes, tail: Bytes, n: nat)
    requires |field| == ExtraLength(second)
    requires n == if field == [] then (second % 128) as nat else FromBytes(field)
    ensures LengthReads([first] + ([second] + field) + tail, first, second >= 128, n, tail)
  {
    assert [first] + ([second] + field) + tail == [first, second] + field + tail;
    Sliced([first, second], field, tail);
  }

  lemma LengthFieldReads(masked: bool, n: nat, first: byte, tail: Bytes)
    requires n < 0x1_0000_0000_0000_0000
    ensures LengthReads([first] + LengthField(masked, n) + tail, first, masked, n, tail)
  {
    Widths();
    var code := if n < 126 then n else if n < 0x10000 then 126 else 127;
    var second := ((if masked then 128 else 0) + code) as byte;
    SecondByte(masked, code);
    var field := if n < 126 then [] else ToBytes(n, if n < 0x10000 then 2 else 8);
    assert LengthField(masked, n) == [second] + field;
    if n >= 126 {
      RoundTrip(n, if n < 0x10000 then 2 else 8);
    }
    FormReads(first, second, field, tail, n);
  }

  lemma FirstByte(fin: bool, opcode: nat)
    requires opcode < 16
    ensures var first := ((if fin then 128 else 0) + opcode) as byte;
            (first >= 128 <==> fin) && (first % 16) as nat == opcode
  {
  }

  lemma BodyReads(f: Frame, rest: Bytes)
    requires Sendable(f)
    ensures ReadBody(Body(f) + rest, f.mask.Some?, |f.payload|, f.fin, f.opcode) ==
            Got(f.fin, f.opcode, f.payload, rest)
  {
    var tail := Body(f) + rest;
    if f.mask.Some? {
      var key, hidden := f.mask.value, Masked(f.payload, f.mask.value);
      MaskingTwice(f.payload, key);
      Sliced(key, hidden, rest);
      assert tail == key + hidden + rest && tail[..4] == key;
    } else {
      assert tail == [] + f.payload + rest;
      Sliced([], f.payload, rest);
    }
  }

  /** The reader recovers final bit, opcode and payload of every frame within the limit, for all three
      length forms and every mask, and leaves the rest of the stream alone. */
  lemma ReadUndoesEncode(f: Frame, rest: Bytes)
    requires Sendable(f)
    ensures ReadFrame(Encode(f) + rest) ==
            if |f.payload| > MAX_MESSAGE then TooLarge else Got(f.fin, f.opcode, f.payload, rest)
  {
    var first := ((if f.fin then 128 else 0) + f.opcode) as byte;
    assert Encode(f) + rest == [first] + LengthField(f.mask.Some?, |f.payload|) + (Body(f) + rest);
    LengthFieldReads(f.mask.Some?, |f.payload|, first, Body(f) + rest);
    FirstByte(f.fin, f.opcode);
    BodyReads(f, rest);
  }

  // ------------------------------------------------------------------------- messages from frames

  /** What one connection produced: messages handed on, pongs sent, and whether it ended as too large. */
  datatype Heard = Heard(delivered: seq<Bytes>, pongs: seq<Bytes>, tooLarge: bool)

  /** `_reader` on a whole stream, with a message begun so far: pings are answered in between, text and
      continuation frames add up until the final bit, other opcodes are skipped, a close ends it. */
  function Hear(stream: Bytes, message: Bytes): Heard
    decreases |stream|
  {
    match ReadFrame(stream)
    case Incomplete => Heard([], [], false)
    case TooLarge => Heard([], [], true)
    case Got(fin, opcode, payload, rest) =>
      if opcode == 8 then Heard([], [], false)
      else if opcode == 9 then
        var h := Hear(rest, message);
        h.(pongs := [payload] + h.pongs)
      else if opcode > 1 then Hear(rest, message)
      else if |message + payload| > MAX_MESSAGE then Heard([], [], true)
      else if !fin then Hear(rest, message + payload)
      else
        var h := Hear(rest, []);
        h.(delivered := [message + payload] + h.delivered)
  }

  function Wire(frames: seq<Frame>): Bytes
    requires forall i :: 0 <= i < |frames| ==> Sendable(frames[i])
  {
    if frames == [] then [] else Encode(frames[0]) + Wire(frames[1..])
  }

  /** The text of a frame sequence: complete messages, by joining text and continuation payloads. */
  function Messages(frames: seq<Frame>, message: Bytes): seq<Bytes> {
    if frames == [] then []
    else if frames[0].opcode > 1 then Messages(frames[1..], message)
    else if !frames[0].fin then Messages(frames[1..], message + frames[0].payload)
    else [message + frames[0].payload] + Messages(frames[1..], [])
  }

  function Pings(frames: seq<Frame>): seq<Bytes> {
    if frames == [] then []
    else if frames[0].opcode == 9 then [frames[0].payload] + Pings(frames[1..])
    else Pings(frames[1..])
  }

  /** No message under construction ever passes the limit, no payload does, and nobody closes. */
  predicate Fits(frames: seq<Frame>, message: Bytes) {
    frames == [] ||
    ( && Sendable(frames[0]) && |frames[0].payload| <= MAX_MESSAGE && frames[0].opcode != 8
      && if frames[0].opcode > 1 then Fits(frames[1..], message)
         else && |message + frames[0].payload| <= MAX_MESSAGE
              && Fits(frames[1..], if frames[0].fin then [] else message + frames[0].payload))
  }

  lemma {:induction false} FitsSendable(frames: seq<Frame>, message: Bytes)
    requires Fits(frames, message)
    ensures forall i :: 0 <= i < |frames| ==> Sendable(frames[i])
  {
    if frames != [] {
      FitsSendable(frames[1..],
                   if frames[0].opcode > 1 then message else if frames[0].fin then [] else message + frames[0].payload);
      assert frames == [frames[0]] + frames[1..];
    }
  }

  /** Everything sent within the limits is heard: each message whole, each ping answered, in order. */
  lemma {:induction false} EverythingIsHeard(frames: seq<Frame>, message: Bytes)
    requires Fits(frames, message)
    ensures (forall i :: 0 <= i < |frames| ==> Sendable(frames[i]))
    ensures Hear(Wire(frames), message) == Heard(Messages(frames, message), Pings(frames), false)
  {
    FitsSendable(frames, message);
    if frames == [] {
      assert ReadFrame([]) == Incomplete;
    } else {
      var f, rest := frames[0], frames[1..];
      ReadUndoesEncode(f, Wire(rest));
      assert Wire(frames) == Encode(f) + Wire(rest);
      EverythingIsHeard(rest, if f.opcode > 1 then message else if f.fin then [] else message + f.payload);
    }
  }

  predicate IsText(f: Frame) {
    f.opcode <= 1
  }

  function TextOnly(frames: seq<Frame>): seq<Frame> {
    if frames == [] then []
    else (if IsText(frames[0]) then [frames[0]] else []) + TextOnly(frames[1..])
  }

  /** Pings, pongs and binary frames anywhere, even inside a fragmented message, change no message. */
  lemma {:induction false} ControlFramesDoNotMatter(frames: seq<Frame>, message: Bytes)
    ensures Messages(frames, message) == Messages(TextOnly(frames), message)
  {
    if frames != [] {
      var f, rest := frames[0], frames[1..];
      ControlFramesDoNotMatter(rest, if !IsText(f) then message else if f.fin then [] else message + f.payload);
      if IsText(f) {
        assert TextOnly(frames) == [f] + TextOnly(rest);
        assert TextOnly(frames)[1..] == TextOnly(rest);
      } else {
        assert TextOnly(frames) == TextOnly(rest);
      }
    }
  }

  function Join(parts: seq<Bytes>): Bytes {
    if parts == [] then [] else parts[0] + Join(parts[1..])
  }

  /** One message in fragments: text first, continuations after it, the final bit on the last only. */
  predicate Fragments(frames: seq<Frame>, parts: seq<Bytes>) {
    && |frames| == |parts| >= 1
    && forall i :: 0 <= i < |parts| ==>
         && frames[i].payload == parts[i] && frames[i].opcode == (if i == 0 then 1 else 0)
         && (frames[i].fin <==> i == |parts| - 1)
  }

  lemma {:induction false} FragmentsJoin(frames: seq<Frame>, parts: seq<Bytes>, message: Bytes, later: seq<Frame>)
    requires |frames| == |parts| >= 1
    requires forall i :: 0 <= i < |parts| ==>
               frames[i].payload == parts[i] && IsText(frames[i]) && (frames[i].fin <==> i == |parts| - 1)
    ensures Messages(frames + later, message) == [message + Join(parts)] + Messages(later, [])
  {
    var all := frames + later;
    assert all[1..] == frames[1..] + later;
    if |frames| == 1 {
      assert frames[1..] + later == later;
      assert Join(parts) == parts[0] + Join([]) == parts[0];
    } else {
      FragmentsJoin(frames[1..], parts[1..], message + parts[0], later);
      assert message + parts[0] + Join(parts[1..]) == message + Join(parts);
    }
  }

  /** A fragmented message sent among any control frames arrives whole, and before whatever follows. */
  lemma FragmentedMessageArrivesWhole(frames: seq<Frame>, parts: seq<Bytes>, text: seq<Frame>, later: seq<Frame>)
    requires Fits(frames, []) && TextOnly(frames) == text + later && Fragments(text, parts)
    ensures (forall i :: 0 <= i < |frames| ==> Sendable(frames[i]))
    ensures Hear(Wire(frames), []).delivered == [Join(parts)] + Messages(later, [])
    ensures Hear(Wire(frames), []).pongs == Pings(frames)
  {
    EverythingIsHeard(frames, []);
    ControlFramesDoNotMatter(frames, []);
    FragmentsJoin(text, parts, [], later);
    assert [] + Join(parts) == Join(parts);
  }

  // ----------------------------------------------------------------------------------- the socket

  function Flat(chunks: seq<Bytes>): Bytes {
    if chunks == [] then [] else chunks[0] + Flat(chunks[1..])
  }

  /** What was handed on, with what is left to hear, makes up the whole. */
  ghost predicate Completes(delivered: seq<Bytes>, pongs: seq<Bytes>, left: Heard, whole: Heard) {
    delivered + left.delivered == whole.delivered
    && pongs + left.pongs == whole.pongs && left.tooLarge == whole.tooLarge
  }

  lemma PongCompletes(delivered: seq<Bytes>, pongs: seq<Bytes>, data: Bytes, left: Heard, whole: Heard)
    requires Completes(delivered, pongs, left.(pongs := [data] + left.pongs), whole)
    ensures Completes(delivered, pongs + [data], left, whole)
  {
    assert pongs + ([data] + left.pongs) == pongs + [data] + left.pongs;
  }

  lemma MessageCompletes(delivered: seq<Bytes>, pongs: seq<Bytes>, message: Bytes, left: Heard, whole: Heard)
    requires Completes(delivered, pongs, left.(delivered := [message] + left.delivered), whole)
    ensures Completes(delivered + [message], pongs, left, whole)
  {
    assert delivered + ([message] + left.delivered) == delivered + [message] + left.delivered;
  }

  class NekoSocket {
    var buffer: Bytes
    var incoming: seq<Bytes> // what `recv` will return, piece by piece, until the peer closes
    var delivered: seq<Bytes>
    var pongs: seq<Bytes>

    function Stream(): Bytes
      reads this
    {
      buffer + Flat(incoming)
    }

    constructor (buffer: Bytes, incoming: seq<Bytes>)
      ensures Stream() == buffer + Flat(incoming) && delivered == [] && pongs == []
    {
      this.buffer, this.incoming, delivered, pongs := buffer, incoming, [], [];
    }

    /** `_read`: exactly n bytes, however they arrive, or a closed connection. */
    method Read(n: nat) returns (data: Option<Bytes>)
      modifies this`buffer, this`incoming
      ensures data.Some? <==> |old(Stream())| >= n
      ensures data.Some? ==> |data.value| == n && data.value + Stream() == old(Stream())
    {
      while |buffer| < n
        invariant Stream() == old(Stream())
        decreases |incoming|
      {
        if incoming == [] {
          return None;
        }
        assert buffer + (incoming[0] + Flat(incoming[1..])) == buffer + incoming[0] + Flat(incoming[1..]);
        buffer, incoming := buffer + incoming[0], incoming[1..];
      }
      data := Some(buffer[..n]);
      buffer := buffer[n..];
      assert data.value + (buffer + Flat(incoming)) == old(Stream());
    }

    /** The reads of one turn of `_reader`. */
    method ReadOne() returns (step: Step)
      modifies this`buffer, this`incoming
      ensures step == ReadFrame(old(Stream()))
      ensures step.Got? ==> Stream() == step.rest
    {
      var header := Read(2);
      if header.None? {
        return Incomplete;
      }
      var b0, b1 := header.value[0], header.value[1];
      ghost var s := old(Stream());
      assert s[0] == b0 && s[1] == b1 && s[2..] == Stream();
      var extra := ExtraLength(b1);
      var length := (b1 % 128) as nat;
      if extra != 0 {
        var field := Read(extra);
        if field.None? {
          return Incomplete;
        }
        assert s[2..2 + extra] == field.value && s[2 + extra..] == Stream();
        length := FromBytes(field.value);
      }
      if length > MAX_MESSAGE {
        return TooLarge;
      }
      step := ReadRest(b1 >= 128, length, b0 >= 128, (b0 % 16) as nat);
    }

    method ReadRest(masked: bool, length: nat, fin: bool, opcode: nat) returns (step: Step)
      modifies this`buffer, this`incoming
      ensures step == ReadBody(old(Stream()), masked, length, fin, opcode)
      ensures step.Got? ==> Stream() == step.rest
    {
      ghost var s := Stream();
      var mask: Bytes := [];
      if masked {
        var key := Read(4);
        if key.None? {
          return Incomplete;
        }
        mask := key.value;
        assert s[..4] == mask && s[4..] == Stream();
      }
      ghost var head := if masked then 4 else 0;
      assert s[head..] == Stream();
      var data := Read(length);
      if data.None? {
        return Incomplete;
      }
      assert s[head..head + length] == data.value && s[head + length..] == Stream();
      return Got(fin, opcode, if masked then Masked(data.value, mask) else data.value, Stream());
    }

    /** `_reader`: whatever the chunks, it hands on and answers exactly what the stream says. */
    method Reader() returns (tooLarge: bool)
      modifies this
      ensures var heard := Hear(old(Stream()), []);
        && delivered == old(delivered) + heard.delivered && pongs == old(pongs) + heard.pongs
        && tooLarge == heard.tooLarge
    {
      var message: Bytes := [];
      ghost var heard := Hear(Stream(), []);
      ghost var whole := Heard(delivered + heard.delivered, pongs + heard.pongs, heard.tooLarge);
      while true
        invariant Completes(delivered, pongs, Hear(Stream(), message), whole)
        decreases |Stream()|
      {
        var step := ReadOne();
        match step {
          case Incomplete => return false;
          case TooLarge => return true;
          case Got(fin, opcode, data, _) =>
            if opcode == 8 {
              return false;
            }
            if opcode == 9 {
              PongCompletes(delivered, pongs, data, Hear(Stream(), message), whole);
              pongs := pongs + [data];
            } else if opcode <= 1 {
              message := message + data;
              if |message| > MAX_MESSAGE {
                return true;
              }
              if fin {
                MessageCompletes(delivered, pongs, message, Hear(Stream(), []), whole);
                delivered := delivered + [message];
                message := [];
              }
            }
        }
      }
    }
  }
}
