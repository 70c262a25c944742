/** The one-shot credential frame: `frame` in scripts/a4-credential-broker.py writes it, `parse_frame` and
    `receive_credential` in scripts/a3-worker-guest.py read it back from a FIFO in arbitrary pieces. */
module CredentialFrame {
  import opened Prelude
  import opened BigEndian

  const MAGIC: Bytes := [0x50, 0x50, 0x41, 0x34] // PPA4
  const MAX_FIELD: nat := 256
  const READ_CAP: nat := 8 + 2 * MAX_FIELD

  predicate Printable(field: Bytes) {
    0 < |field| <= MAX_FIELD && forall i :: 0 <= i < |field| ==> 0x20 <= field[i] <= 0x7e
  }

  predicate Fits(field: Bytes) {
    |field| < 0x10000
  }

  function Part(field: Bytes): (part: Bytes)
    requires Fits(field)
    ensures |part| == 2 + |field|
  {
    TwoBytes();
    ToBytes(|field|, 2) + field
  }

  /** PPA4 | u16 length | username | u16 length | password. */
  function FrameOf(username: Bytes, password: Bytes): (frame: Bytes)
    requires Fits(username) && Fits(password)
    ensures |frame| == 8 + |username| + |password|
  {
    MAGIC + Part(username) + Part(password)
  }

  lemma Regrouped(a: Bytes, b: Bytes, c: Bytes)
    ensures a + b + c == a + (b + c)
  {
  }

  /** `frame`: a part too long for its length field is an error. */
  method Frame(username: Bytes, password: Bytes) returns (frame: Option<Bytes>)
    ensures frame == if Fits(username) && Fits(password) then Some(FrameOf(username, password)) else None
  {
    TwoBytes();
    var parts := [username, password];
    var out := MAGIC;
    for i := 0 to |parts|
      invariant i >= 1 ==> Fits(username)
      invariant i >= 2 ==> Fits(password)
      invariant out == if i == 0 then MAGIC else if i == 1 then MAGIC + Part(username) else FrameOf(username, password)
    {
      if |parts[i]| >= 0x10000 {
        return None;
      }
      Regrouped(out, ToBytes(|parts[i]|, 2), parts[i]);
      out := out + ToBytes(|parts[i]|, 2);
      out := out + parts[i];
    }
    return Some(out);
  }

  /** `parse_frame`: exact length, exact magic, printable fields. */
  function Parse(data: Bytes): Option<(Bytes, Bytes)> {
    if |data| < 8 || data[..4] != MAGIC then None
    else
      var ulen := FromBytes(data[4..6]);
      if |data| < 8 + ulen then None
      else
        var plen := FromBytes(data[6 + ulen..8 + ulen]);
        if |data| != 8 + ulen + plen then None
        else
          var username, password := data[6..6 + ulen], data[8 + ulen..];
          if Printable(username) && Printable(password) then Some((username, password)) else None
  }

  /** The parser accepts exactly the frames the broker builds, and returns the same pair. */
  lemma ParseAcceptsExactlyFrames(data: Bytes, username: Bytes, password: Bytes)
    ensures Parse(data) == Some((username, password)) <==>
              Printable(username) && Printable(password) && data == FrameOf(username, password)
  {
    if Printable(username) && Printable(password) && data == FrameOf(username, password) {
      ParseUndoesFrame(username, password);
    }
    if Parse(data) == Some((username, password)) {
      FrameUndoesParse(data);
    }
  }

  lemma FrameSlices(a: Bytes, username: Bytes, b: Bytes, password: Bytes)
    requires |a| == |b| == 2
    ensures var data := MAGIC + (a + username) + (b + password); var ulen := |username|;
      && data[..4] == MAGIC && data[4..6] == a && data[6..6 + ulen] == username
      && data[6 + ulen..8 + ulen] == b && data[8 + ulen..] == password
  {
  }

  lemma ParseUndoesFrame(username: Bytes, password: Bytes)
    requires Printable(username) && Printable(password)
    ensures Parse(FrameOf(username, password)) == Some((username, password))
  {
    TwoBytes();
    RoundTrip(|username|, 2);
    RoundTrip(|password|, 2);
    FrameSlices(ToBytes(|username|, 2), username, ToBytes(|password|, 2), password);
  }

  lemma FrameParts(data: Bytes, ulen: nat)
    requires 8 + ulen <= |data|
    ensures data == data[..4] + (data[4..6] + data[6..6 + ulen]) + (data[6 + ulen..8 + ulen] + data[8 + ulen..])
  {
  }

  lemma FrameUndoesParse(data: Bytes)
    requires Parse(data).Some?
    ensures var (username, password) := Parse(data).value;
            Printable(username) && Printable(password) && data == FrameOf(username, password)
  {
    TwoBytes();
    var ulen := FromBytes(data[4..6]);
    RoundTripBytes(data[4..6]);
    RoundTripBytes(data[6 + ulen..8 + ulen]);
    FrameParts(data, ulen);
  }

  /** The read cap admits the largest frame and nothing longer. */
  lemma CapIsExact()
    ensures forall username, password :: Printable(username) && Printable(password) ==>
            |FrameOf(username, password)| <= READ_CAP
    ensures exists username, password ::
              Printable(username) && Printable(password) && |FrameOf(username, password)| == READ_CAP
  {
    var widest: Bytes := seq(MAX_FIELD, _ => 0x20);
    assert Printable(widest);
    assert |FrameOf(widest, widest)| == READ_CAP;
  }

  // ------------------------------------------------------------------------------ the read loop

  /** What one turn of the loop sees: nothing yet, or a read, which is empty when no writer is left. */
  datatype Turn = NotReady | Chunk(bytes: Bytes)

  datatype Received = Pair(username: Bytes, password: Bytes) | FrameInvalid | NotDelivered

  /** All bytes read. */
  function Gathered(turns: seq<Turn>): Bytes {
    if turns == [] then []
    else Gathered(turns[..|turns| - 1]) + if turns[|turns| - 1].Chunk? then turns[|turns| - 1].bytes else []
  }

  /** The turn at which the loop stops: a close after some data, or too much data. */
  predicate Stops(turns: seq<Turn>, n: nat)
    requires n < |turns|
  {
    && turns[n].Chunk?
    && if turns[n].bytes == [] then Gathered(turns[..n]) != [] else |Gathered(turns[..n + 1])| > READ_CAP
  }

  function Verdict(data: Bytes): Received {
    match Parse(data)
    case None => FrameInvalid
    case Some((username, password)) => Pair(username, password)
  }

  /** The first turn from n on at which the loop stops, or the number of turns if time runs out first. */
  function StopFrom(turns: seq<Turn>, n: nat): (stop: nat)
    requires n <= |turns|
    ensures n <= stop <= |turns| && (stop < |turns| ==> Stops(turns, stop))
    ensures forall k :: n <= k < stop ==> !Stops(turns, k)
    decreases |turns| - n
  {
    if n == |turns| || Stops(turns, n) then n else StopFrom(turns, n + 1)
  }

  /** What a whole wait comes to. */
  function Outcome(turns: seq<Turn>): Received {
    var stop := StopFrom(turns, 0);
    if stop == |turns| then NotDelivered
    else if turns[stop].bytes == [] then Verdict(Gathered(turns[..stop]))
    else FrameInvalid
  }

  /** `receive_credential`: read until the writer closes, the cap is passed or time runs out, then parse. */
  method Receive(turns: seq<Turn>) returns (result: Received)
    ensures result == Outcome(turns)
    ensures result.Pair? ==>
      && Printable(result.username) && Printable(result.password)
      && Gathered(turns[..StopFrom(turns, 0)]) == FrameOf(result.username, result.password)
  {
    var data: Bytes, i := [], 0;
    while i < |turns|
      invariant 0 <= i <= |turns| && data == Gathered(turns[..i]) && StopFrom(turns, 0) == StopFrom(turns, i)
    {
      assert turns[..i + 1][..i] == turns[..i];
      match turns[i] {
        case NotReady =>
        case Chunk(bytes) =>
          if bytes != [] {
            data := data + bytes;
            if |data| > READ_CAP {
              return FrameInvalid;
            }
          } else if data != [] {
            result := Verdict(data);
            if result.Pair? {
              FrameUndoesParse(data);
            }
            return;
          }
      }
      i := i + 1;
    }
    return NotDelivered;
  }

  lemma {:induction false} GatheredGrows(turns: seq<Turn>, n: nat)
    requires n <= |turns|
    ensures Gathered(turns[..n]) <= Gathered(turns)
    decreases |turns|
  {
    if n == |turns| {
      assert turns[..n] == turns;
    } else {
      var init := turns[..|turns| - 1];
      assert init[..n] == turns[..n];
      GatheredGrows(init, n);
    }
  }

  /** However a frame is cut into pieces, and however long the reader waits in between, the read loop
      stops at the writer's close and returns the pair that was framed. */
  lemma EveryChunkingDelivers(turns: seq<Turn>, close: nat, username: Bytes, password: Bytes)
    requires Printable(username) && Printable(password)
    requires close < |turns| && turns[close] == Chunk([]) && Gathered(turns[..close]) == FrameOf(username, password)
    requires forall k :: 0 <= k < close && turns[k] == Chunk([]) ==> Gathered(turns[..k]) == []
    ensures Outcome(turns) == Pair(username, password)
  {
    ParseAcceptsExactlyFrames(Gathered(turns[..close]), username, password);
    forall k | 0 <= k < close
      ensures !Stops(turns, k)
    {
      assert turns[..close][..k + 1] == turns[..k + 1];
      GatheredGrows(turns[..close], k + 1);
    }
    assert Stops(turns, close);
    assert !(StopFrom(turns, 0) < close) && !(StopFrom(turns, 0) > close);
  }
}
