/** UTF-8, as Python's strict `encode('utf-8')` and `decode('utf-8')` (section 3 of RFC 3629). */
module Utf8 {
  import opened Prelude

  /** A code point that is not a surrogate. */
  type Scalar = c: nat | c < 0xD800 || 0xE000 <= c < 0x110000

  type Text = seq<Scalar>

  function Tail(n: nat): byte {
    (0x80 + n % 64) as byte
  }

  function EncodeOne(c: Scalar): (bytes: Bytes)
    ensures 1 <= |bytes| <= 4
  {
    if c < 0x80 then [c as byte]
    else if c < 0x800 then [(0xC0 + c / 64) as byte, Tail(c)]
    else if c < 0x10000 then [(0xE0 + c / 4096) as byte, Tail(c / 64), Tail(c)]
    else [(0xF0 + c / 262144) as byte, Tail(c / 4096), Tail(c / 64), Tail(c)]
  }

  function Encode(text: Text): Bytes {
    Spread(EncodeOne, text)
  }

  predicate IsTail(b: byte) {
    0x80 <= b < 0xC0
  }

  /** How many bytes the first character takes; 0 when the bytes start with none. */
  function Width(bytes: Bytes): (n: nat)
    ensures n <= |bytes|
  {
    if |bytes| >= 1 && bytes[0] < 0x80 then 1
    else if |bytes| >= 2 && 0xC2 <= bytes[0] < 0xE0 && IsTail(bytes[1]) then 2
    else if |bytes| >= 3 && 0xE0 <= bytes[0] < 0xF0 && IsTail(bytes[1]) && IsTail(bytes[2]) &&
            (bytes[0] == 0xE0 ==> bytes[1] >= 0xA0) && (bytes[0] == 0xED ==> bytes[1] < 0xA0) then 3
    else if |bytes| >= 4 && 0xF0 <= bytes[0] < 0xF5 && IsTail(bytes[1]) && IsTail(bytes[2]) && IsTail(bytes[3]) &&
            (bytes[0] == 0xF0 ==> bytes[1] >= 0x90) && (bytes[0] == 0xF4 ==> bytes[1] < 0x90) then 4
    else 0
  }

  function DecodeOne(bytes: Bytes): (c: Scalar)
    requires Width(bytes) > 0
  {
    var n := Width(bytes);
    if n == 1 then bytes[0] as nat
    else if n == 2 then (bytes[0] as nat - 0xC0) * 64 + (bytes[1] as nat - 0x80)
    else if n == 3 then (bytes[0] as nat - 0xE0) * 4096 + (bytes[1] as nat - 0x80) * 64 + (bytes[2] as nat - 0x80)
    else (bytes[0] as nat - 0xF0) * 262144 + (bytes[1] as nat - 0x80) * 4096
         + (bytes[2] as nat - 0x80) * 64 + (bytes[3] as nat - 0x80)
  }

  function Decode(bytes: Bytes): Option<Text> {
    if bytes == [] then Some([])
    else if Width(bytes) == 0 then None
    else
      match Decode(bytes[Width(bytes)..])
      case None => None
      case Some(rest) => Some([DecodeOne(bytes)] + rest)
  }

  lemma Sixes(c: nat)
    ensures c == c / 64 * 64 + c % 64
    ensures c / 4096 == c / 64 / 64
    ensures c / 262144 == c / 4096 / 64
  {
  }

  /** The two, three or four groups of bits that a sum of tails holds. */
  lemma TwoGroups(a: nat, b: nat, c: nat)
    requires c == a * 64 + b && b < 64
    ensures c / 64 == a && c % 64 == b
  {
  }

  lemma ThreeGroups(a: nat, b: nat, d: nat, c: nat)
    requires c == a * 4096 + b * 64 + d && b < 64 && d < 64
    ensures c / 4096 == a && c / 64 % 64 == b && c % 64 == d
  {
    TwoGroups(a * 64 + b, d, c);
    TwoGroups(a, b, a * 64 + b);
    Sixes(c);
  }

  lemma FourGroups(a: nat, b: nat, d: nat, e: nat, c: nat)
    requires c == a * 262144 + b * 4096 + d * 64 + e && b < 64 && d < 64 && e < 64
    ensures c / 262144 == a && c / 4096 % 64 == b && c / 64 % 64 == d && c % 64 == e
  {
    TwoGroups(a * 4096 + b * 64 + d, e, c);
    ThreeGroups(a, b, d, a * 4096 + b * 64 + d);
    TwoGroups(a * 64 + b, d, a * 4096 + b * 64 + d);
    TwoGroups(a, b, a * 64 + b);
    Sixes(c);
  }

  lemma EncodeUndoesDecodeTwo(bytes: Bytes)
    requires Width(bytes) == 2
    ensures EncodeOne(DecodeOne(bytes)) == bytes[..2]
  {
    TwoGroups(bytes[0] as nat - 0xC0, bytes[1] as nat - 0x80, DecodeOne(bytes));
  }

  lemma EncodeUndoesDecodeThree(bytes: Bytes)
    requires Width(bytes) == 3
    ensures EncodeOne(DecodeOne(bytes)) == bytes[..3]
  {
    ThreeGroups(bytes[0] as nat - 0xE0, bytes[1] as nat - 0x80, bytes[2] as nat - 0x80, DecodeOne(bytes));
  }

  lemma EncodeUndoesDecodeFour(bytes: Bytes)
    requires Width(bytes) == 4
    ensures EncodeOne(DecodeOne(bytes)) == bytes[..4]
  {
    FourGroups(bytes[0] as nat - 0xF0, bytes[1] as nat - 0x80, bytes[2] as nat - 0x80, bytes[3] as nat - 0x80,
                 DecodeOne(bytes));
  }

  lemma EncodeUndoesDecodeOne(bytes: Bytes)
    requires Width(bytes) > 0
    ensures EncodeOne(DecodeOne(bytes)) == bytes[..Width(bytes)]
  {
    if Width(bytes) == 2 {
      EncodeUndoesDecodeTwo(bytes);
    } else if Width(bytes) == 3 {
      EncodeUndoesDecodeThree(bytes);
    } else if Width(bytes) == 4 {
      EncodeUndoesDecodeFour(bytes);
    }
  }

  lemma DecodeUndoesEncodeOne(c: Scalar)
    ensures Width(EncodeOne(c)) == |EncodeOne(c)|
    ensures DecodeOne(EncodeOne(c)) == c
  {
    Sixes(c);
    Sixes(c / 64);
    Sixes(c / 4096);
  }

  lemma OnlyTheWidthMatters(bytes: Bytes, rest: Bytes)
    requires 0 < Width(bytes)
    ensures Width(bytes + rest) == Width(bytes) && DecodeOne(bytes + rest) == DecodeOne(bytes)
  {
    var whole := bytes + rest;
    assert whole[0] == bytes[0];
    assert |bytes| > 1 ==> whole[1] == bytes[1];
    assert |bytes| > 2 ==> whole[2] == bytes[2];
    assert |bytes| > 3 ==> whole[3] == bytes[3];
  }

  lemma EncodePrepended(c: Scalar, rest: Text, bytes: Bytes, n: nat)
    requires n <= |bytes| && EncodeOne(c) == bytes[..n] && Encode(rest) == bytes[n..]
    ensures Encode([c] + rest) == bytes
  {
    assert ([c] + rest)[1..] == rest;
  }

  /** Decoding accepts exactly the encodings, and gives back the one text encoded. */
  lemma {:induction false} EncodeUndoesDecode(bytes: Bytes)
    requires Decode(bytes).Some?
    ensures Encode(Decode(bytes).value) == bytes
  {
    if bytes != [] {
      EncodeUndoesDecodeOne(bytes);
      EncodeUndoesDecode(bytes[Width(bytes)..]);
      EncodePrepended(DecodeOne(bytes), Decode(bytes[Width(bytes)..]).value, bytes, Width(bytes));
    }
  }

  lemma {:induction false} DecodeUndoesEncode(text: Text)
    ensures Decode(Encode(text)) == Some(text)
  {
    if text != [] {
      var head, tail := EncodeOne(text[0]), Encode(text[1..]);
      DecodeUndoesEncodeOne(text[0]);
      OnlyTheWidthMatters(head, tail);
      DecodeUndoesEncode(text[1..]);
      assert (head + tail)[|head|..] == tail;
      assert text == [text[0]] + text[1..];
    }
  }
}
