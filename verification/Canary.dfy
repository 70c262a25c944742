/** The canary search: needles for a secret in its common encodings, and their count in a sink. */
module CanaryScan {
  import opened Prelude
  import Base64
  import Utf8

  const MIN_CANARY := 12

  // ----- how text is escaped -----

  function HexLower(n: nat): byte
    requires n < 16
  {
    if n < 10 then (48 + n) as byte else (87 + n) as byte
  }

  function HexUpper(n: nat): byte
    requires n < 16
  {
    if n < 10 then (48 + n) as byte else (55 + n) as byte
  }

  /** A backslash, `u` and four digits. */
  function UnicodeEscape(n: nat): (s: Bytes)
    requires n < 0x10000
    ensures |s| == 6
  {
    [92, 117, HexLower(n / 4096), HexLower(n / 256 % 16), HexLower(n / 16 % 16), HexLower(n % 16)]
  }

  /** One character inside a JSON string kept to ASCII. */
  function JsonOne(c: Utf8.Scalar): (s: Bytes)
    ensures |s| >= |Utf8.EncodeOne(c)|
  {
    if c == 92 then [92, 92]
    else if c == 34 then [92, 34]
    else if c == 10 then [92, 110]
    else if c == 13 then [92, 114]
    else if c == 9 then [92, 116]
    else if c == 12 then [92, 102]
    else if c == 8 then [92, 98]
    else if 32 <= c < 127 then [c as byte]
    else if c < 0x10000 then UnicodeEscape(c)
    else UnicodeEscape(0xD800 + (c - 0x10000) / 0x400) + UnicodeEscape(0xDC00 + (c - 0x10000) % 0x400)
  }

  /** `json.dumps(text)[1:-1]` */
  function JsonBody(text: Utf8.Text): Bytes {
    Spread(JsonOne, text)
  }

  predicate Unreserved(b: byte) {
    48 <= b <= 57 || 65 <= b <= 90 || 97 <= b <= 122 || b in [45, 46, 95, 126]
  }

  function PercentOne(b: byte, plus: bool): (s: Bytes)
    ensures |s| >= 1
  {
    if Unreserved(b) then [b]
    else if plus && b == 32 then [43]
    else [37, HexUpper(b as nat / 16), HexUpper(b as nat % 16)]
  }

  /** `quote(text, safe='')`, or with `plus` `quote_plus(text, safe='')`. */
  function Quote(text: Utf8.Text, plus: bool): Bytes {
    Spread(b => PercentOne(b, plus), Utf8.Encode(text))
  }

  /** Escaping never shortens: a value long enough has escapes long enough. */
  lemma EscapesAreLonger(text: Utf8.Text)
    ensures |JsonBody(text)| >= |Utf8.Encode(text)|
    ensures forall plus :: |Quote(text, plus)| >= |Utf8.Encode(text)|
  {
    SpreadLonger(Utf8.EncodeOne, JsonOne, text);
    forall plus ensures |Quote(text, plus)| >= |Utf8.Encode(text)| {
      SpreadLonger(b => [b], b => PercentOne(b, plus), Utf8.Encode(text));
      SpreadSame(Utf8.Encode(text));
    }
  }

  lemma {:induction false} SpreadSame(data: Bytes)
    ensures Spread(b => [b], data) == data
  {
    if data != [] {
      SpreadSame(data[1..]);
    }
  }

  // ----- the needles -----

  function Zeros(k: nat): (s: Bytes)
    ensures |s| == k
  {
    seq(k, _ => 0)
  }

  /** The first letter of an encoding after k bytes that depends on none of them. */
  function CutStart(k: nat): nat {
    (8 * k + 5) / 6
  }

  function Cut(value: Bytes, k: nat, alphabet: Base64.Alphabet): (needle: Bytes)
    requires k < 3 && |value| >= MIN_CANARY
    ensures |needle| >= 14
  {
    Base64.StrippedIsLetters(Zeros(k) + value, alphabet);
    var encoded := Base64.RightStripped(Base64.Encode(Zeros(k) + value, alphabet), Base64.PAD);
    encoded[CutStart(k)..|encoded| - 2]
  }

  /** The cuts in one alphabet for the first n alignments. */
  function Cuts(value: Bytes, n: nat, alphabet: Base64.Alphabet): (needles: set<Bytes>)
    requires n <= 3 && |value| >= MIN_CANARY
  {
    if n == 0 then {} else Cuts(value, n - 1, alphabet) + {Cut(value, n - 1, alphabet)}
  }

  lemma {:induction false} CutsHold(value: Bytes, n: nat, alphabet: Base64.Alphabet, k: nat)
    requires k < n <= 3 && |value| >= MIN_CANARY
    ensures Cut(value, k, alphabet) in Cuts(value, n, alphabet)
  {
    if k < n - 1 {
      CutsHold(value, n - 1, alphabet, k);
    }
  }

  lemma {:induction false} CutsAreLong(value: Bytes, n: nat, alphabet: Base64.Alphabet, needle: Bytes)
    requires n <= 3 && |value| >= MIN_CANARY && needle in Cuts(value, n, alphabet)
    ensures |needle| >= MIN_CANARY
  {
    if needle != Cut(value, n - 1, alphabet) {
      CutsAreLong(value, n - 1, alphabet, needle);
    }
  }

  function Escapes(value: Bytes, text: Utf8.Text): set<Bytes> {
    {value, JsonBody(text), Quote(text, false), Quote(text, true)}
  }

  /** Everything that `patterns` looks for. */
  function Needles(value: Bytes, text: Utf8.Text): set<Bytes>
    requires |value| >= MIN_CANARY
  {
    Escapes(value, text) + Cuts(value, 3, Base64.Standard) + Cuts(value, 3, Base64.UrlSafe)
  }

  /** Every needle is long enough to be kept. */
  lemma NeedlesAreLong(value: Bytes, text: Utf8.Text, needle: Bytes)
    requires |value| >= MIN_CANARY && value == Utf8.Encode(text)
    requires needle in Needles(value, text)
    ensures |needle| >= MIN_CANARY
  {
    if needle in Escapes(value, text) {
      EscapesAreLonger(text);
    } else if needle in Cuts(value, 3, Base64.Standard) {
      CutsAreLong(value, 3, Base64.Standard, needle);
    } else {
      CutsAreLong(value, 3, Base64.UrlSafe, needle);
    }
  }

  method Gather(value: Bytes, text: Utf8.Text) returns (found: set<Bytes>)
    requires |value| >= MIN_CANARY
    ensures found == Needles(value, text)
  {
    found := Escapes(value, text);
    var alphabets := [Base64.Standard, Base64.UrlSafe];
    for a := 0 to 2
      invariant a == 0 ==> found == Escapes(value, text)
      invariant a == 1 ==> found == Escapes(value, text) + Cuts(value, 3, Base64.Standard)
      invariant a == 2 ==> found == Needles(value, text)
    {
      ghost var before := found;
      for k := 0 to 3
        invariant found == before + Cuts(value, k, alphabets[a])
      {
        found := found + {Cut(value, k, alphabets[a])};
      }
    }
  }

  /** None where the source raises; otherwise every needle once, in any order. */
  method Patterns(value: Bytes) returns (needles: Option<seq<Bytes>>)
    ensures needles.None? <==> |value| < MIN_CANARY || Utf8.Decode(value).None?
    ensures needles.Some? ==> Distinct(needles.value)
    ensures needles.Some? ==> forall needle :: needle in needles.value <==>
            needle in Needles(value, Utf8.Decode(value).value)
  {
    if |value| < MIN_CANARY {
      return None;
    }
    var decoded := Utf8.Decode(value);
    if decoded.None? {
      return None;
    }
    var found := Gather(value, decoded.value);
    Utf8.EncodeUndoesDecode(value);
    forall needle | needle in found ensures |needle| >= 8 {
      NeedlesAreLong(value, decoded.value, needle);
    }
    var kept := Keep(found);
    needles := Some(kept);
  }

  /** The members of a set that are long enough, each once. */
  method Keep(found: set<Bytes>) returns (kept: seq<Bytes>)
    ensures Distinct(kept)
    ensures forall needle :: needle in kept <==> needle in found && |needle| >= 8
  {
    kept := [];
    var left := found;
    while left != {}
      invariant left <= found && Distinct(kept)
      invariant forall needle :: needle in kept <==> needle in found - left && |needle| >= 8
    {
      var needle :| needle in left;
      left := left - {needle};
      if |needle| >= 8 {
        kept := kept + [needle];
      }
    }
  }

  // ----- where a needle occurs -----

  predicate Occurs(data: Bytes, needle: Bytes, at: int) {
    0 <= at && at + |needle| <= |data| && data[at..at + |needle|] == needle
  }

  ghost predicate Contains(data: Bytes, needle: Bytes) {
    exists at :: Occurs(data, needle, at)
  }

  ghost function Places(data: Bytes, needle: Bytes, from: nat): set<int> {
    set at | from <= at <= |data| && Occurs(data, needle, at)
  }

  ghost function Occurrences(data: Bytes, needles: seq<Bytes>): nat {
    if needles == [] then 0
    else Occurrences(data, needles[..|needles| - 1]) + |Places(data, needles[|needles| - 1], 0)|
  }

  /** `data.find(needle, from)` */
  method Find(data: Bytes, needle: Bytes, from: nat) returns (at: int)
    ensures at == -1 || (from <= at && Occurs(data, needle, at))
    ensures forall p :: from <= p && (at == -1 || p < at) ==> !Occurs(data, needle, p)
  {
    at := from;
    while at + |needle| <= |data|
      invariant from <= at
      invariant forall p :: from <= p < at ==> !Occurs(data, needle, p)
    {
      if data[at..at + |needle|] == needle {
        return;
      }
      at := at + 1;
    }
    at := -1;
  }

  lemma PlacesFrom(data: Bytes, needle: Bytes, from: nat, at: int)
    requires from <= at && Occurs(data, needle, at)
    requires forall p :: from <= p < at ==> !Occurs(data, needle, p)
    ensures |Places(data, needle, from)| == 1 + |Places(data, needle, at + 1)|
  {
    assert Places(data, needle, from) == {at} + Places(data, needle, at + 1);
  }

  method Count(data: Bytes, needles: seq<Bytes>) returns (total: nat)
    ensures total == Occurrences(data, needles)
    ensures total == 0 <==> forall i :: 0 <= i < |needles| ==> !Contains(data, needles[i])
  {
    total := 0;
    for i := 0 to |needles|
      invariant total == Occurrences(data, needles[..i])
    {
      var needle := needles[i];
      var from: nat := 0;
      var at := Find(data, needle, from);
      while at >= 0
        invariant at == -1 || (from <= at && Occurs(data, needle, at))
        invariant forall p :: from <= p && (at == -1 || p < at) ==> !Occurs(data, needle, p)
        invariant total + |Places(data, needle, from)| == Occurrences(data, needles[..i]) + |Places(data, needle, 0)|
        decreases if at < 0 then 0 else |data| + 1 - at
      {
        PlacesFrom(data, needle, from, at);
        total := total + 1;
        from := at + 1;
        at := Find(data, needle, from);
      }
      assert Places(data, needle, from) == {};
      assert needles[..i + 1][..i] == needles[..i];
    }
    assert needles[..|needles|] == needles;
    NoneOccurs(data, needles);
  }

  lemma {:induction false} NoneOccurs(data: Bytes, needles: seq<Bytes>)
    ensures Occurrences(data, needles) == 0 <==> forall i :: 0 <= i < |needles| ==> !Contains(data, needles[i])
  {
    if needles != [] {
      var init, last := needles[..|needles| - 1], needles[|needles| - 1];
      NoneOccurs(data, init);
      assert forall i :: 0 <= i < |init| ==> init[i] == needles[i];
      if at :| Occurs(data, last, at) {
        assert at in Places(data, last, 0);
      } else {
        assert Places(data, last, 0) == {};
      }
    }
  }

  // ----- nothing that carries the value goes uncounted -----

  /** A letter of a cut has all its bits inside the value. */
  lemma CutLetterInside(k: nat, n: nat, i: nat)
    requires k < 3 && CutStart(k) <= i < Base64.LetterCount(n) - 2
    ensures k <= Base64.FirstByte(i) && Base64.LastByte(i) < n
  {
  }

  lemma CutBytes(before: Bytes, value: Bytes, after: Bytes, x: nat)
    requires |before| % 3 <= x < |before| % 3 + |value|
    ensures Base64.At(Zeros(|before| % 3) + value, x) == Base64.At(before + value + after, 3 * (|before| / 3) + x)
  {
    assert (Zeros(|before| % 3) + value)[x] == value[x - |before| % 3]
           == (before + value + after)[3 * (|before| / 3) + x];
  }

  lemma CutSextet(before: Bytes, value: Bytes, after: Bytes, i: nat)
    requires CutStart(|before| % 3) <= i < Base64.LetterCount(|before| % 3 + |value|) - 2
    ensures Base64.Sextet(Zeros(|before| % 3) + value, i)
         == Base64.Sextet(before + value + after, 4 * (|before| / 3) + i)
  {
    var k, shift := |before| % 3, |before| / 3;
    CutLetterInside(k, k + |value|, i);
    forall x | Base64.FirstByte(i) <= x <= Base64.LastByte(i)
      ensures Base64.At(Zeros(k) + value, x) == Base64.At(before + value + after, 3 * shift + x)
    {
      CutBytes(before, value, after, x);
    }
    Base64.SextetDepends(Zeros(k) + value, before + value + after, shift, i);
  }

  lemma CutLetter(before: Bytes, value: Bytes, after: Bytes, alphabet: Base64.Alphabet, i: nat)
    requires CutStart(|before| % 3) <= i < Base64.LetterCount(|before| % 3 + |value|) - 2
    ensures i < |Base64.Encode(Zeros(|before| % 3) + value, alphabet)|
    ensures 4 * (|before| / 3) + i < |Base64.Encode(before + value + after, alphabet)|
    ensures Base64.Encode(Zeros(|before| % 3) + value, alphabet)[i]
         == Base64.Encode(before + value + after, alphabet)[4 * (|before| / 3) + i]
  {
    var k, shift := |before| % 3, |before| / 3;
    CutSextet(before, value, after, i);
    Base64.EncodeAt(Zeros(k) + value, alphabet, i);
    Base64.EncodeAt(before + value + after, alphabet, 4 * shift + i);
  }

  function CutEnd(value: Bytes, k: nat): int {
    Base64.LetterCount(k + |value|) - 2
  }

  lemma CutIsSlice(value: Bytes, k: nat, alphabet: Base64.Alphabet)
    requires k < 3 && |value| >= MIN_CANARY
    ensures CutStart(k) < CutEnd(value, k) <= |Base64.Encode(Zeros(k) + value, alphabet)|
    ensures Cut(value, k, alphabet) == Base64.Encode(Zeros(k) + value, alphabet)[CutStart(k)..CutEnd(value, k)]
  {
    var part := Base64.Encode(Zeros(k) + value, alphabet);
    Base64.StrippedIsLetters(Zeros(k) + value, alphabet);
    SliceOfPrefix(part, Base64.LetterCount(k + |value|), CutStart(k), CutEnd(value, k));
  }

  lemma SliceOfPrefix(s: Bytes, n: nat, from: nat, to: nat)
    requires from <= to <= n <= |s|
    ensures s[..n][from..to] == s[from..to]
  {
  }

  lemma SliceOccurs(whole: Bytes, part: Bytes, shift: nat, from: nat, to: nat)
    requires from < to <= |part| && shift + to <= |whole|
    requires forall i :: from <= i < to ==> part[i] == whole[shift + i]
    ensures Occurs(whole, part[from..to], shift + from)
  {
    assert whole[shift + from..shift + to] == part[from..to];
  }

  /** Whatever surrounds the value, its cut for that alignment is in the encoding. */
  lemma CutOccurs(before: Bytes, value: Bytes, after: Bytes, alphabet: Base64.Alphabet)
    requires |value| >= MIN_CANARY
    ensures Occurs(Base64.Encode(before + value + after, alphabet), Cut(value, |before| % 3, alphabet),
                   4 * (|before| / 3) + CutStart(|before| % 3))
  {
    var k, shift := |before| % 3, 4 * (|before| / 3);
    var whole, part := Base64.Encode(before + value + after, alphabet), Base64.Encode(Zeros(k) + value, alphabet);
    var start, end := CutStart(k), CutEnd(value, k);
    CutIsSlice(value, k, alphabet);
    CutLetter(before, value, after, alphabet, end - 1);
    forall i | start <= i < end ensures part[i] == whole[shift + i] {
      CutLetter(before, value, after, alphabet, i);
    }
    SliceOccurs(whole, part, shift, start, end);
  }

  /** A way in which a sink may hold the value among other content. */
  datatype Carrier =
    | Raw(before: Bytes, after: Bytes)
    | Encoded(alphabet: Base64.Alphabet, before: Bytes, after: Bytes)
    | JsonString(left: Utf8.Text, right: Utf8.Text)
    | UrlText(plus: bool, left: Utf8.Text, right: Utf8.Text)

  function Written(carrier: Carrier, text: Utf8.Text): Bytes {
    match carrier
    case Raw(before, after) => before + Utf8.Encode(text) + after
    case Encoded(alphabet, before, after) => Base64.Encode(before + Utf8.Encode(text) + after, alphabet)
    case JsonString(left, right) => JsonBody(left + text + right)
    case UrlText(plus, left, right) => Quote(left + text + right, plus)
  }

  function NeedleFor(carrier: Carrier, text: Utf8.Text): Bytes
    requires |Utf8.Encode(text)| >= MIN_CANARY
  {
    match carrier
    case Raw(_, _) => Utf8.Encode(text)
    case Encoded(alphabet, before, _) => Cut(Utf8.Encode(text), |before| % 3, alphabet)
    case JsonString(_, _) => JsonBody(text)
    case UrlText(plus, _, _) => Quote(text, plus)
  }

  lemma NeedleForIsNeedle(carrier: Carrier, text: Utf8.Text)
    requires |Utf8.Encode(text)| >= MIN_CANARY
    ensures NeedleFor(carrier, text) in Needles(Utf8.Encode(text), text)
  {
    if carrier.Encoded? {
      CutsHold(Utf8.Encode(text), 3, carrier.alphabet, |carrier.before| % 3);
      if carrier.alphabet == Base64.Standard {
        assert NeedleFor(carrier, text) in Cuts(Utf8.Encode(text), 3, Base64.Standard);
      } else {
        assert NeedleFor(carrier, text) in Cuts(Utf8.Encode(text), 3, Base64.UrlSafe);
      }
    } else {
      assert NeedleFor(carrier, text) in Escapes(Utf8.Encode(text), text);
    }
  }

  lemma MiddleOccurs(left: Bytes, middle: Bytes, right: Bytes)
    ensures Occurs(left + middle + right, middle, |left|)
  {
  }

  lemma SpreadOccurs<T>(one: T -> Bytes, left: seq<T>, middle: seq<T>, right: seq<T>)
    ensures Contains(Spread(one, left + middle + right), Spread(one, middle))
  {
    SpreadJoins(one, left + middle, right);
    SpreadJoins(one, left, middle);
    MiddleOccurs(Spread(one, left), Spread(one, middle), Spread(one, right));
  }

  lemma CarrierHoldsNeedle(carrier: Carrier, text: Utf8.Text)
    requires |Utf8.Encode(text)| >= MIN_CANARY
    ensures Contains(Written(carrier, text), NeedleFor(carrier, text))
  {
    match carrier
    case Raw(before, after) => MiddleOccurs(before, Utf8.Encode(text), after);
    case Encoded(alphabet, before, after) => CutOccurs(before, Utf8.Encode(text), after, alphabet);
    case JsonString(left, right) => SpreadOccurs(JsonOne, left, text, right);
    case UrlText(plus, left, right) =>
      SpreadJoins(Utf8.EncodeOne, left + text, right);
      SpreadJoins(Utf8.EncodeOne, left, text);
      SpreadOccurs(b => PercentOne(b, plus), Utf8.Encode(left), Utf8.Encode(text), Utf8.Encode(right));
  }

  /** A sink that holds the value in any of these ways has a count above zero. */
  lemma NothingIsMissed(carrier: Carrier, text: Utf8.Text, left: Bytes, right: Bytes, needles: seq<Bytes>)
    requires |Utf8.Encode(text)| >= MIN_CANARY
    requires forall needle :: needle in Needles(Utf8.Encode(text), text) ==> needle in needles
    ensures Occurrences(left + Written(carrier, text) + right, needles) > 0
  {
    var needle, inner := NeedleFor(carrier, text), Written(carrier, text);
    var data := left + inner + right;
    CarrierHoldsNeedle(carrier, text);
    var at :| Occurs(inner, needle, at);
    assert data[|left| + at..|left| + at + |needle|] == inner[at..at + |needle|];
    assert Occurs(data, needle, |left| + at);
    NeedleForIsNeedle(carrier, text);
    NoneOccurs(data, needles);
  }

  /** Whether the bytes hold the text in some carrier, among anything else. */
  ghost predicate Holds(data: Bytes, text: Utf8.Text) {
    exists carrier, left, right :: data == left + Written(carrier, text) + right
  }

  ghost function OccurrencesIn(bodies: seq<Bytes>, needles: seq<Bytes>): nat {
    if bodies == [] then 0
    else OccurrencesIn(bodies[..|bodies| - 1], needles) + Occurrences(bodies[|bodies| - 1], needles)
  }

  /** A sink's count: in its bytes, and in each receipt body decoded from them. */
  method ScanBytes(data: Bytes, bodies: seq<Bytes>, needles: seq<Bytes>) returns (total: nat)
    ensures total == Occurrences(data, needles) + OccurrencesIn(bodies, needles)
  {
    total := Count(data, needles);
    for i := 0 to |bodies|
      invariant total == Occurrences(data, needles) + OccurrencesIn(bodies[..i], needles)
    {
      var found := Count(bodies[i], needles);
      total := total + found;
      assert bodies[..i + 1][..i] == bodies[..i];
    }
    assert bodies[..|bodies|] == bodies;
  }

  lemma HeldIsCounted(data: Bytes, text: Utf8.Text, needles: seq<Bytes>)
    requires |Utf8.Encode(text)| >= MIN_CANARY
    requires forall needle :: needle in Needles(Utf8.Encode(text), text) ==> needle in needles
    ensures Holds(data, text) ==> Occurrences(data, needles) > 0
  {
    if Holds(data, text) {
      var carrier, left, right :| data == left + Written(carrier, text) + right;
      NothingIsMissed(carrier, text, left, right, needles);
    }
  }

  lemma {:induction false} BodyIsCounted(bodies: seq<Bytes>, needles: seq<Bytes>, i: nat)
    requires i < |bodies|
    ensures Occurrences(bodies[i], needles) <= OccurrencesIn(bodies, needles)
  {
    if i < |bodies| - 1 {
      BodyIsCounted(bodies[..|bodies| - 1], needles, i);
    }
  }

  /** A sink counted clean holds the value nowhere, and neither does a receipt in it. */
  lemma CleanSinkHoldsNothing(data: Bytes, bodies: seq<Bytes>, text: Utf8.Text, needles: seq<Bytes>)
    requires |Utf8.Encode(text)| >= MIN_CANARY
    requires forall needle :: needle in Needles(Utf8.Encode(text), text) ==> needle in needles
    requires Occurrences(data, needles) + OccurrencesIn(bodies, needles) == 0
    ensures !Holds(data, text)
    ensures forall i :: 0 <= i < |bodies| ==> !Holds(bodies[i], text)
  {
    HeldIsCounted(data, text, needles);
    forall i | 0 <= i < |bodies| ensures !Holds(bodies[i], text) {
      BodyIsCounted(bodies, needles, i);
      HeldIsCounted(bodies[i], text, needles);
    }
  }
}
