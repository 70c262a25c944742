/** Canonical JSON of the browser contract, and the uniqueItems test built on it. */
module CanonicalJson {
  import opened Prelude

  datatype Entry<+T> = Entry(key: string, value: T)

  /** A Python value without floats; a dict keeps its entries in insertion order. */
  datatype Json =
    | Null
    | Bool(truth: bool)
    | Int(number: int)
    | Str(text: string)
    | Arr(items: seq<Json>)
    | Obj(entries: seq<Entry<Json>>)

  /** What a value means: an object is a map, in which entries have no order. */
  datatype Value =
    | NullValue
    | BoolValue(truth: bool)
    | IntValue(number: int)
    | StrValue(text: string)
    | ArrValue(items: seq<Value>)
    | ObjValue(fields: map<string, Value>)

  ghost predicate Keyed<T>(entries: seq<Entry<T>>) {
    forall i, j :: 0 <= i < j < |entries| ==> entries[i].key != entries[j].key
  }

  /** Every object at every depth holds each of its keys once, as a dict does. */
  ghost predicate WellFormed(v: Json) {
    match v
    case Arr(items) => forall i :: 0 <= i < |items| ==> WellFormed(items[i])
    case Obj(entries) => Keyed(entries) && forall i :: 0 <= i < |entries| ==> WellFormed(entries[i].value)
    case _ => true
  }

  ghost function Meaning(v: Json): Value {
    match v
    case Null => NullValue
    case Bool(truth) => BoolValue(truth)
    case Int(number) => IntValue(number)
    case Str(text) => StrValue(text)
    case Arr(items) => ArrValue(seq(|items|, i requires 0 <= i < |items| => Meaning(items[i])))
    case Obj(entries) =>
      ObjValue(Fields(seq(|entries|, i requires 0 <= i < |entries| =>
                         Entry(entries[i].key, Meaning(entries[i].value)))))
  }

  /** The lookup a list of entries stands for. */
  ghost function Fields<T>(entries: seq<Entry<T>>): map<string, T> {
    if entries == [] then map[] else Fields(entries[1..])[entries[0].key := entries[0].value]
  }

  // ----- the printer -----

  function Power(base: nat, exponent: nat): nat {
    if exponent == 0 then 1 else base * Power(base, exponent - 1)
  }

  /** The smallest integer whose conversion to a double overflows. */
  function DoubleLimit(): int {
    Power(2, 1024) - Power(2, 970)
  }

  /** Whether `math.isfinite` answers for every integer inside, rather than raising. */
  predicate Convertible(v: Json) {
    match v
    case Int(number) => -DoubleLimit() < number < DoubleLimit()
    case Arr(items) => forall i :: 0 <= i < |items| ==> Convertible(items[i])
    case Obj(entries) => forall i :: 0 <= i < |entries| ==> Convertible(entries[i].value)
    case _ => true
  }

  function Digit(n: nat): char
    requires n < 10
  {
    "0123456789"[n]
  }

  function Hex(n: nat): char
    requires n < 16
  {
    "0123456789abcdef"[n]
  }

  function Digits(n: nat): (s: string)
    ensures |s| > 0
  {
    if n < 10 then [Digit(n)] else Digits(n / 10) + [Digit(n % 10)]
  }

  function Number(n: int): string {
    if n < 0 then "-" + Digits(-n) else Digits(n)
  }

  function Escape(c: char): (s: string)
    ensures |s| > 0
  {
    if c == '\\' then "\\\\"
    else if c == '\"' then "\\\""
    else if c == '\n' then "\\n"
    else if c == '\r' then "\\r"
    else if c == '\t' then "\\t"
    else if c == 12 as char then "\\f"
    else if c == 8 as char then "\\b"
    else if c < 32 as char then "\\u00" + [Hex(c as nat / 16), Hex(c as nat % 16)]
    else [c]
  }

  function Escaped(s: string): string {
    if s == "" then "" else Escape(s[0]) + Escaped(s[1..])
  }

  function Quoted(s: string): string {
    "\"" + Escaped(s) + "\""
  }

  function Joined(texts: seq<string>): string {
    if texts == [] then ""
    else if |texts| == 1 then texts[0]
    else texts[0] + "," + Joined(texts[1..])
  }

  /** The order of Python strings: by code point, a prefix first. */
  predicate Before(s: string, t: string) {
    t != "" && (s == "" || s[0] < t[0] || (s[0] == t[0] && Before(s[1..], t[1..])))
  }

  function Insert<T>(e: Entry<T>, sorted: seq<Entry<T>>): seq<Entry<T>> {
    if sorted == [] || Before(e.key, sorted[0].key) then [e] + sorted
    else [sorted[0]] + Insert(e, sorted[1..])
  }

  function Sorted<T>(entries: seq<Entry<T>>): seq<Entry<T>> {
    if entries == [] then [] else Insert(entries[0], Sorted(entries[1..]))
  }

  function EntryText(e: Entry<string>): string {
    Quoted(e.key) + ":" + e.value
  }

  function EntryTexts(entries: seq<Entry<string>>): seq<string> {
    seq(|entries|, i requires 0 <= i < |entries| => EntryText(entries[i]))
  }

  function Text(v: Json): string {
    match v
    case Null => "null"
    case Bool(truth) => if truth then "true" else "false"
    case Int(number) => Number(number)
    case Str(text) => Quoted(text)
    case Arr(items) => "[" + Joined(seq(|items|, i requires 0 <= i < |items| => Text(items[i]))) + "]"
    case Obj(entries) =>
      var printed := seq(|entries|, i requires 0 <= i < |entries| => Entry(entries[i].key, Text(entries[i].value)));
      "{" + Joined(EntryTexts(Sorted(printed))) + "}"
  }

  function Canonical(v: Json): Option<string> {
    if Convertible(v) then Some(Text(v)) else None
  }

  function Canonicals(items: seq<Json>): seq<Option<string>> {
    seq(|items|, i requires 0 <= i < |items| => Canonical(items[i]))
  }

  function ToSet<T(==)>(s: seq<T>): set<T> {
    set x | x in s
  }

  /** The uniqueItems test of `validate`; None when printing an item raises. */
  function UniqueItems(items: seq<Json>): Option<bool> {
    if None in Canonicals(items) then None
    else Some(|ToSet(Canonicals(items))| == |items|)
  }

  // ----- texts that show where they end -----

  predicate Stops(rest: string) {
    rest == "" || !('0' <= rest[0] <= '9')
  }

  /** Neither text can be mistaken for the other, whatever follows them. */
  ghost predicate Separable(s: string, t: string) {
    forall x, y :: Stops(x) && Stops(y) && s + x == t + y ==> s == t && x == y
  }

  predicate Opens(s: string) {
    s != "" && s[0] !in ",]}"
  }

  lemma {:induction false} DigitsOnly(n: nat)
    ensures forall i :: 0 <= i < |Digits(n)| ==> '0' <= Digits(n)[i] <= '9'
  {
    if n >= 10 {
      DigitsOnly(n / 10);
    }
  }

  lemma {:induction false} DigitsInjective(m: nat, n: nat)
    requires Digits(m) == Digits(n)
    ensures m == n
  {
    var s, t := Digits(m), Digits(n);
    assert s[|s| - 1] == Digit(m % 10) && t[|t| - 1] == Digit(n % 10);
    assert m % 10 == n % 10;
    if m >= 10 && n >= 10 {
      assert s[..|s| - 1] == Digits(m / 10) && t[..|t| - 1] == Digits(n / 10);
      DigitsInjective(m / 10, n / 10);
    } else {
      assert |Digits(m)| == 1 <==> m < 10;
      assert |Digits(n)| == 1 <==> n < 10;
    }
  }

  function LeadingDigits(s: string): nat {
    if Stops(s) then 0 else 1 + LeadingDigits(s[1..])
  }

  lemma {:induction false} DigitsLead(s: string, x: string)
    requires Stops(x)
    requires forall i :: 0 <= i < |s| ==> '0' <= s[i] <= '9'
    ensures LeadingDigits(s + x) == |s|
  {
    if s == "" {
      assert s + x == x;
    } else {
      DigitsLead(s[1..], x);
      assert (s + x)[1..] == s[1..] + x;
    }
  }

  lemma DigitsSeparable(m: nat, n: nat, x: string, y: string)
    requires Stops(x) && Stops(y) && Digits(m) + x == Digits(n) + y
    ensures m == n && x == y
  {
    DigitsOnly(m);
    DigitsOnly(n);
    DigitsLead(Digits(m), x);
    DigitsLead(Digits(n), y);
    SplitSame(Digits(m), Digits(n), x, y);
    DigitsInjective(m, n);
  }

  lemma SplitSame<T>(s: seq<T>, t: seq<T>, x: seq<T>, y: seq<T>)
    requires |s| == |t| && s + x == t + y
    ensures s == t && x == y
  {
    assert (s + x)[..|s|] == s && (t + y)[..|t|] == t;
    assert (s + x)[|s|..] == x && (t + y)[|t|..] == y;
  }

  lemma Assoc<T>(s: seq<T>, t: seq<T>, u: seq<T>)
    ensures (s + t) + u == s + (t + u)
  {
  }

  function First(s: string): Option<char> {
    if s == "" then None else Some(s[0])
  }

  lemma FirstOf(s: string, x: string)
    ensures First(s + x) == if s == "" then First(x) else First(s)
  {
    assert s == "" ==> s + x == x;
  }

  lemma NumberSeparable(m: int, n: int, x: string, y: string)
    requires Stops(x) && Stops(y) && Number(m) + x == Number(n) + y
    ensures m == n && x == y
  {
    var a, b := if m < 0 then -m else m, if n < 0 then -n else n;
    NumberStart(m, x);
    NumberStart(n, y);
    if m < 0 {
      Assoc("-", Digits(a), x);
      Assoc("-", Digits(b), y);
      SplitSame("-", "-", Digits(a) + x, Digits(b) + y);
    }
    DigitsSeparable(a, b, x, y);
  }

  lemma NumberStart(n: int, x: string)
    ensures First(Number(n) + x) == Some('-') <==> n < 0
    ensures First(Number(n)) == Some('-') <==> n < 0
    ensures n >= 0 ==> '0' <= Number(n)[0] <= '9'
  {
    DigitsOnly(if n < 0 then -n else n);
    FirstOf(Number(n), x);
  }

  lemma EscapeSeparable(c: char, d: char, x: string, y: string)
    requires Escape(c) + x == Escape(d) + y
    ensures c == d && x == y
  {
    var s, t := Escape(c), Escape(d);
    var whole := s + x;
    assert whole[0] == s[0] == t[0];
    if whole[0] == '\\' {
      assert whole[1] == s[1] == t[1];
      if whole[1] == 'u' {
        assert whole[4] == s[4] == t[4] && whole[5] == s[5] == t[5];
      }
    }
    assert c == d;
    SplitSame(s, t, x, y);
  }

  lemma EscapedStart(s: string, x: string)
    requires First(x) == Some('\"')
    ensures First(Escaped(s) + x) == Some('\"') <==> s == ""
  {
    FirstOf(Escaped(s), x);
    if s != "" {
      FirstOf(Escape(s[0]), Escaped(s[1..]));
    }
  }

  lemma {:induction false} EscapedSeparable(s: string, t: string, x: string, y: string)
    requires First(x) == First(y) == Some('\"')
    requires Escaped(s) + x == Escaped(t) + y
    ensures s == t && x == y
  {
    EscapedStart(s, x);
    EscapedStart(t, y);
    if s == "" {
      SplitSame("", "", x, y);
    } else {
      Assoc(Escape(s[0]), Escaped(s[1..]), x);
      Assoc(Escape(t[0]), Escaped(t[1..]), y);
      EscapeSeparable(s[0], t[0], Escaped(s[1..]) + x, Escaped(t[1..]) + y);
      EscapedSeparable(s[1..], t[1..], x, y);
      assert s == [s[0]] + s[1..] && t == [t[0]] + t[1..];
    }
  }

  /** A text in brackets, followed by anything. */
  lemma Bracketed(open: char, body: string, close: char, x: string)
    ensures [open] + body + [close] + x == [open] + (body + ([close] + x))
  {
    Assoc([open], body, [close]);
    Assoc([open], body + [close], x);
    Assoc(body, [close], x);
  }

  lemma QuotedSeparable(s: string, t: string, x: string, y: string)
    requires Quoted(s) + x == Quoted(t) + y
    ensures s == t && x == y
  {
    Bracketed('\"', Escaped(s), '\"', x);
    Bracketed('\"', Escaped(t), '\"', y);
    SplitSame("\"", "\"", Escaped(s) + ("\"" + x), Escaped(t) + ("\"" + y));
    EscapedSeparable(s, t, "\"" + x, "\"" + y);
    SplitSame("\"", "\"", x, y);
  }

  lemma EntryTextAs(e: Entry<string>, x: string)
    ensures EntryText(e) + x == Quoted(e.key) + (":" + (e.value + x))
  {
    Assoc(Quoted(e.key), ":", e.value);
    Assoc(Quoted(e.key), ":" + e.value, x);
    Assoc(":", e.value, x);
  }

  lemma EntrySeparable(a: Entry<string>, b: Entry<string>)
    requires Separable(a.value, b.value)
    ensures Separable(EntryText(a), EntryText(b))
    ensures EntryText(a) == EntryText(b) ==> a == b
  {
    forall x, y | Stops(x) && Stops(y) && EntryText(a) + x == EntryText(b) + y
      ensures a == b && x == y
    {
      EntryTextAs(a, x);
      EntryTextAs(b, y);
      QuotedSeparable(a.key, b.key, ":" + (a.value + x), ":" + (b.value + y));
      SplitSame(":", ":", a.value + x, b.value + y);
    }
    assert EntryText(a) + "" == EntryText(a) && EntryText(b) + "" == EntryText(b);
  }

  /** What follows the first of several joined texts, up to the closing bracket. */
  function AfterFirst(texts: seq<string>): string
    requires texts != []
  {
    if |texts| == 1 then "" else "," + Joined(texts[1..])
  }

  lemma JoinedStart(texts: seq<string>, rest: string)
    requires rest != "" && rest[0] in "]}"
    requires forall i :: 0 <= i < |texts| ==> Opens(texts[i])
    ensures First(Joined(texts) + rest) == First(rest) <==> texts == []
    ensures texts != [] ==> Joined(texts) + rest == texts[0] + (AfterFirst(texts) + rest)
  {
    FirstOf(Joined(texts), rest);
    if |texts| == 1 {
      assert AfterFirst(texts) + rest == rest;
    } else if texts != [] {
      Assoc(texts[0], ",", Joined(texts[1..]));
      Assoc(texts[0], AfterFirst(texts), rest);
      FirstOf(texts[0], AfterFirst(texts));
    }
  }

  lemma AfterFirstStart(texts: seq<string>, rest: string)
    requires texts != [] && rest != "" && rest[0] in "]}"
    ensures Stops(AfterFirst(texts) + rest)
    ensures First(AfterFirst(texts) + rest) == Some(',') <==> |texts| > 1
    ensures |texts| == 1 ==> AfterFirst(texts) + rest == rest
    ensures |texts| > 1 ==> AfterFirst(texts) + rest == "," + (Joined(texts[1..]) + rest)
  {
    FirstOf(AfterFirst(texts), rest);
    if |texts| > 1 {
      Assoc(",", Joined(texts[1..]), rest);
    }
  }

  lemma {:induction false} JoinedSeparable(ts: seq<string>, us: seq<string>, x: string, y: string)
    requires First(x) == First(y) && x != "" && x[0] in "]}"
    requires forall i :: 0 <= i < |ts| ==> Opens(ts[i])
    requires forall i :: 0 <= i < |us| ==> Opens(us[i])
    requires forall i, j :: 0 <= i < |ts| && 0 <= j < |us| ==> Separable(ts[i], us[j])
    requires Joined(ts) + x == Joined(us) + y
    ensures ts == us && x == y
    decreases |ts|
  {
    JoinedStart(ts, x);
    JoinedStart(us, y);
    if ts == [] {
      SplitSame("", "", x, y);
    } else {
      AfterFirstStart(ts, x);
      AfterFirstStart(us, y);
      assert Separable(ts[0], us[0]);
      if |ts| > 1 {
        SplitSame(",", ",", Joined(ts[1..]) + x, Joined(us[1..]) + y);
        JoinedSeparable(ts[1..], us[1..], x, y);
        assert ts == [ts[0]] + ts[1..] && us == [us[0]] + us[1..];
      }
    }
  }

  // ----- the normal form: every object sorted -----

  function NormalEntries(v: Json): (entries: seq<Entry<Json>>)
    requires v.Obj?
    decreases v, 0
  {
    seq(|v.entries|, i requires 0 <= i < |v.entries| => Entry(v.entries[i].key, Normal(v.entries[i].value)))
  }

  /** The value with the entries of every object in it in key order. */
  function Normal(v: Json): Json
    decreases v, 1
  {
    match v
    case Arr(items) => Arr(seq(|items|, i requires 0 <= i < |items| => Normal(items[i])))
    case Obj(_) => Obj(Sorted(NormalEntries(v)))
    case _ => v
  }

  function ItemTexts(v: Json): seq<string>
    requires v.Arr?
    decreases v, 0
  {
    seq(|v.items|, i requires 0 <= i < |v.items| => Plain(v.items[i]))
  }

  function FieldTexts(v: Json): seq<Entry<string>>
    requires v.Obj?
    decreases v, 0
  {
    seq(|v.entries|, i requires 0 <= i < |v.entries| => Entry(v.entries[i].key, Plain(v.entries[i].value)))
  }

  /** Printing every object in the order it has. */
  function Plain(v: Json): string
    decreases v, 1
  {
    match v
    case Null => "null"
    case Bool(truth) => if truth then "true" else "false"
    case Int(number) => Number(number)
    case Str(text) => Quoted(text)
    case Arr(_) => "[" + Joined(ItemTexts(v)) + "]"
    case Obj(_) => "{" + Joined(EntryTexts(FieldTexts(v))) + "}"
  }

  /** The first character, which tells the kind of value. */
  function Initial(v: Json): char {
    match v
    case Null => 'n'
    case Bool(truth) => if truth then 't' else 'f'
    case Int(number) => Number(number)[0]
    case Str(_) => '\"'
    case Arr(_) => '['
    case Obj(_) => '{'
  }

  lemma PlainStart(v: Json, x: string)
    ensures First(Plain(v) + x) == Some(Initial(v))
    ensures Opens(Plain(v))
    ensures v.Int? <==> Initial(v) == '-' || '0' <= Initial(v) <= '9'
  {
    FirstOf(Plain(v), x);
    if v.Int? {
      NumberStart(v.number, "");
    }
  }

  lemma BracketsSeparable(open: char, ts: seq<string>, us: seq<string>, close: char, x: string, y: string)
    requires close in "]}"
    requires forall i :: 0 <= i < |ts| ==> Opens(ts[i])
    requires forall i :: 0 <= i < |us| ==> Opens(us[i])
    requires forall i, j :: 0 <= i < |ts| && 0 <= j < |us| ==> Separable(ts[i], us[j])
    requires [open] + Joined(ts) + [close] + x == [open] + Joined(us) + [close] + y
    ensures ts == us && x == y
  {
    Bracketed(open, Joined(ts), close, x);
    Bracketed(open, Joined(us), close, y);
    SplitSame([open], [open], Joined(ts) + ([close] + x), Joined(us) + ([close] + y));
    JoinedSeparable(ts, us, [close] + x, [close] + y);
    SplitSame([close], [close], x, y);
  }

  lemma {:induction false} ArraySeparable(a: Json, b: Json, x: string, y: string)
    requires a.Arr? && b.Arr? && Stops(x) && Stops(y) && Plain(a) + x == Plain(b) + y
    ensures a == b && x == y
    decreases a, 0
  {
    var ts, us := ItemTexts(a), ItemTexts(b);
    forall i | 0 <= i < |ts| ensures Opens(ts[i]) {
      PlainStart(a.items[i], "");
    }
    forall i | 0 <= i < |us| ensures Opens(us[i]) {
      PlainStart(b.items[i], "");
    }
    forall i, j | 0 <= i < |ts| && 0 <= j < |us| ensures Separable(ts[i], us[j]) {
      PlainSeparable(a.items[i], b.items[j]);
    }
    BracketsSeparable('[', ts, us, ']', x, y);
    forall i | 0 <= i < |a.items| ensures a.items[i] == b.items[i] {
      assert ts[i] == us[i];
      PlainSeparable(a.items[i], b.items[i]);
    }
  }

  lemma {:induction false} ObjectSeparable(a: Json, b: Json, x: string, y: string)
    requires a.Obj? && b.Obj? && Stops(x) && Stops(y) && Plain(a) + x == Plain(b) + y
    ensures a == b && x == y
    decreases a, 0
  {
    var es, fs := FieldTexts(a), FieldTexts(b);
    var ts, us := EntryTexts(es), EntryTexts(fs);
    forall i, j | 0 <= i < |ts| && 0 <= j < |us|
      ensures Separable(ts[i], us[j])
      ensures ts[i] == us[j] ==> a.entries[i] == b.entries[j]
    {
      PlainSeparable(a.entries[i].value, b.entries[j].value);
      EntrySeparable(es[i], fs[j]);
    }
    BracketsSeparable('{', ts, us, '}', x, y);
    forall i | 0 <= i < |a.entries| ensures a.entries[i] == b.entries[i] {
      assert ts[i] == us[i];
    }
  }

  lemma {:induction false} PlainSeparable(a: Json, b: Json)
    ensures Separable(Plain(a), Plain(b))
    ensures Plain(a) == Plain(b) ==> a == b
    decreases a, 1
  {
    forall x, y | Stops(x) && Stops(y) && Plain(a) + x == Plain(b) + y ensures a == b && x == y {
      PlainStart(a, x);
      PlainStart(b, y);
      match a
      case Int(m) => NumberSeparable(m, b.number, x, y);
      case Str(s) => QuotedSeparable(s, b.text, x, y);
      case Arr(_) => ArraySeparable(a, b, x, y);
      case Obj(_) => ObjectSeparable(a, b, x, y);
      case _ => SplitSame(Plain(a), Plain(b), x, y);
    }
    assert Plain(a) + "" == Plain(a) && Plain(b) + "" == Plain(b);
  }

  // ----- sorting -----

  ghost predicate Ordered<T>(entries: seq<Entry<T>>) {
    forall i, j :: 0 <= i < j < |entries| ==> Before(entries[i].key, entries[j].key)
  }

  lemma {:induction false} BeforeTotal(s: string, t: string)
    ensures s == t ==> !Before(s, t)
    ensures s != t ==> Before(s, t) != Before(t, s)
  {
    if s != "" && t != "" && s[0] == t[0] {
      BeforeTotal(s[1..], t[1..]);
      assert s == [s[0]] + s[1..] && t == [t[0]] + t[1..];
    }
  }

  lemma {:induction false} BeforeTransitive(s: string, t: string, u: string)
    requires Before(s, t) && Before(t, u)
    ensures Before(s, u)
  {
    if s != "" && s[0] == t[0] == u[0] {
      BeforeTransitive(s[1..], t[1..], u[1..]);
    }
  }

  lemma {:induction false} FieldKeys<T>(entries: seq<Entry<T>>)
    ensures forall k :: k in Fields(entries) <==> exists i :: 0 <= i < |entries| && entries[i].key == k
  {
    if entries != [] {
      FieldKeys(entries[1..]);
    }
  }

  lemma {:induction false} FieldsHold<T>(entries: seq<Entry<T>>)
    requires Keyed(entries)
    ensures forall i :: 0 <= i < |entries| ==>
              entries[i].key in Fields(entries) && Fields(entries)[entries[i].key] == entries[i].value
  {
    if entries != [] {
      FieldsHold(entries[1..]);
    }
  }

  lemma {:induction false} InsertFields<T>(e: Entry<T>, sorted: seq<Entry<T>>)
    requires e.key !in Fields(sorted)
    ensures Fields(Insert(e, sorted)) == Fields(sorted)[e.key := e.value]
  {
    if sorted == [] || Before(e.key, sorted[0].key) {
      assert ([e] + sorted)[1..] == sorted;
    } else {
      var rest := Insert(e, sorted[1..]);
      InsertFields(e, sorted[1..]);
      assert ([sorted[0]] + rest)[1..] == rest;
    }
  }

  lemma {:induction false} InsertOrders<T>(e: Entry<T>, sorted: seq<Entry<T>>)
    requires Ordered(sorted) && e.key !in Fields(sorted)
    ensures Ordered(Insert(e, sorted))
  {
    FieldKeys(sorted);
    if sorted == [] || Before(e.key, sorted[0].key) {
      forall i | 0 < i < |sorted| ensures Before(e.key, sorted[i].key) {
        BeforeTransitive(e.key, sorted[0].key, sorted[i].key);
      }
    } else {
      var tail := sorted[1..];
      InsertOrders(e, tail);
      InsertFields(e, tail);
      FieldKeys(tail);
      FieldKeys(Insert(e, tail));
      BeforeTotal(e.key, sorted[0].key);
      forall i | 0 <= i < |Insert(e, tail)| ensures Before(sorted[0].key, Insert(e, tail)[i].key) {
        var k := Insert(e, tail)[i].key;
        assert k in Fields(Insert(e, tail));
        if k != e.key {
          var j :| 0 <= j < |tail| && tail[j].key == k;
          assert sorted[j + 1].key == k;
        }
      }
    }
  }

  lemma {:induction false} SortedKeeps<T>(entries: seq<Entry<T>>)
    requires Keyed(entries)
    ensures Ordered(Sorted(entries))
    ensures Fields(Sorted(entries)) == Fields(entries)
  {
    if entries != [] {
      SortedKeeps(entries[1..]);
      FieldKeys(entries[1..]);
      InsertFields(entries[0], Sorted(entries[1..]));
      InsertOrders(entries[0], Sorted(entries[1..]));
    }
  }

  lemma OrderedIsKeyed<T>(entries: seq<Entry<T>>)
    requires Ordered(entries)
    ensures Keyed(entries)
  {
    forall i, j | 0 <= i < j < |entries| ensures entries[i].key != entries[j].key {
      BeforeTotal(entries[i].key, entries[j].key);
    }
  }

  /** Of two ordered lists with the same fields, neither starts before the other. */
  lemma OrderedHead<T>(s: seq<Entry<T>>, t: seq<Entry<T>>)
    requires Ordered(s) && Ordered(t) && Fields(s) == Fields(t) && s != []
    ensures t != [] && !Before(s[0].key, t[0].key)
  {
    OrderedIsKeyed(s);
    OrderedIsKeyed(t);
    FieldKeys(s);
    FieldKeys(t);
    assert s[0].key in Fields(t);
    var i :| 0 <= i < |t| && t[i].key == s[0].key;
    BeforeTotal(s[0].key, t[0].key);
  }

  lemma TailFields<T>(entries: seq<Entry<T>>)
    requires Keyed(entries) && entries != []
    ensures Fields(entries[1..]) == Fields(entries) - {entries[0].key}
    ensures entries[0].key in Fields(entries) && Fields(entries)[entries[0].key] == entries[0].value
  {
    var head, tail := entries[0], entries[1..];
    FieldKeys(tail);
    assert head.key !in Fields(tail);
    PutThenRemove(Fields(tail), head.key, head.value);
  }

  lemma PutThenRemove<T>(fields: map<string, T>, key: string, value: T)
    requires key !in fields
    ensures fields[key := value] - {key} == fields
  {
  }

  lemma {:induction false} OrderedUnique<T>(s: seq<Entry<T>>, t: seq<Entry<T>>)
    requires Ordered(s) && Ordered(t) && Fields(s) == Fields(t)
    ensures s == t
  {
    if s != [] {
      OrderedHead(s, t);
      OrderedHead(t, s);
      BeforeTotal(s[0].key, t[0].key);
      OrderedIsKeyed(s);
      OrderedIsKeyed(t);
      TailFields(s);
      TailFields(t);
      OrderedUnique(s[1..], t[1..]);
      assert s == [s[0]] + s[1..] && t == [t[0]] + t[1..];
    } else {
      assert |Fields(t)| == 0;
    }
  }

  // ----- the canonical text is the plain text of the normal form -----

  function PlainEntry(e: Entry<Json>): Entry<string> {
    Entry(e.key, Plain(e.value))
  }

  function PlainEntries(entries: seq<Entry<Json>>): seq<Entry<string>> {
    seq(|entries|, i requires 0 <= i < |entries| => PlainEntry(entries[i]))
  }

  lemma {:induction false} InsertCommutes(e: Entry<Json>, sorted: seq<Entry<Json>>)
    ensures PlainEntries(Insert(e, sorted)) == Insert(PlainEntry(e), PlainEntries(sorted))
  {
    if sorted != [] {
      assert PlainEntries(sorted)[1..] == PlainEntries(sorted[1..]);
      InsertCommutes(e, sorted[1..]);
    }
  }

  lemma {:induction false} SortedCommutes(entries: seq<Entry<Json>>)
    ensures PlainEntries(Sorted(entries)) == Sorted(PlainEntries(entries))
  {
    if entries != [] {
      assert PlainEntries(entries)[1..] == PlainEntries(entries[1..]);
      SortedCommutes(entries[1..]);
      InsertCommutes(entries[0], Sorted(entries[1..]));
    }
  }

  lemma {:induction false} TextIsPlain(v: Json)
    ensures Text(v) == Plain(Normal(v))
  {
    match v
    case Arr(items) =>
      forall i | 0 <= i < |items| ensures Text(items[i]) == Plain(Normal(items[i])) {
        TextIsPlain(items[i]);
      }
      assert ItemTexts(Normal(v)) == seq(|items|, i requires 0 <= i < |items| => Text(items[i]));
    case Obj(entries) =>
      forall i | 0 <= i < |entries| ensures Text(entries[i].value) == Plain(Normal(entries[i].value)) {
        TextIsPlain(entries[i].value);
      }
      var printed := seq(|entries|, i requires 0 <= i < |entries| => Entry(entries[i].key, Text(entries[i].value)));
      assert printed == PlainEntries(NormalEntries(v));
      SortedCommutes(NormalEntries(v));
      assert FieldTexts(Normal(v)) == PlainEntries(Sorted(NormalEntries(v)));
    case _ =>
  }

  // ----- equal normal forms are equal meanings -----

  ghost function MeaningEntries(v: Json): seq<Entry<Value>>
    requires v.Obj?
  {
    seq(|v.entries|, i requires 0 <= i < |v.entries| => Entry(v.entries[i].key, Meaning(v.entries[i].value)))
  }

  lemma FindKey<T>(entries: seq<Entry<T>>, key: string) returns (i: nat)
    requires Keyed(entries) && key in Fields(entries)
    ensures i < |entries| && entries[i] == Entry(key, Fields(entries)[key])
  {
    FieldKeys(entries);
    i :| 0 <= i < |entries| && entries[i].key == key;
    FieldsHold(entries);
  }

  /** Two readings of two lists that keep keys and carry equal entries to equal entries. */
  ghost predicate Alike<T, U>(s: seq<Entry<T>>, t: seq<Entry<T>>, u: seq<Entry<U>>, w: seq<Entry<U>>) {
    && Keyed(s) && Keyed(t) && Keyed(u) && Keyed(w) && |s| == |u| && |t| == |w|
    && (forall i :: 0 <= i < |s| ==> s[i].key == u[i].key)
    && (forall j :: 0 <= j < |t| ==> t[j].key == w[j].key)
    && (forall i, j :: 0 <= i < |s| && 0 <= j < |t| && s[i] == t[j] ==> u[i] == w[j])
  }

  lemma FieldAlike<T, U>(s: seq<Entry<T>>, t: seq<Entry<T>>, u: seq<Entry<U>>, w: seq<Entry<U>>, key: string)
    requires Alike(s, t, u, w) && Fields(s) == Fields(t) && key in Fields(u)
    ensures key in Fields(w) && Fields(u)[key] == Fields(w)[key]
  {
    var i := FindKey(u, key);
    FieldsHold(s);
    assert s[i].key in Fields(s);
    var j := FindKey(t, key);
    assert s[i] == t[j];
    FieldsHold(w);
    assert w[j].key in Fields(w);
  }

  lemma FieldsAlike<T, U>(s: seq<Entry<T>>, t: seq<Entry<T>>, u: seq<Entry<U>>, w: seq<Entry<U>>)
    requires Alike(s, t, u, w) && Alike(t, s, w, u) && Fields(s) == Fields(t)
    ensures Fields(u) == Fields(w)
  {
    forall key | key in Fields(u) ensures key in Fields(w) && Fields(u)[key] == Fields(w)[key] {
      FieldAlike(s, t, u, w, key);
    }
    forall key | key in Fields(w) ensures key in Fields(u) {
      FieldAlike(t, s, w, u, key);
    }
  }

  lemma SameNormal(a: Json, b: Json)
    requires a.Obj? && b.Obj? && Keyed(a.entries) && Keyed(b.entries)
    ensures Normal(a) == Normal(b) <==> Fields(NormalEntries(a)) == Fields(NormalEntries(b))
  {
    var s, t := NormalEntries(a), NormalEntries(b);
    SortedKeeps(s);
    SortedKeeps(t);
    if Fields(s) == Fields(t) {
      OrderedUnique(Sorted(s), Sorted(t));
    }
  }

  lemma SameMeaning(a: Json, b: Json)
    requires a.Obj? && b.Obj?
    ensures Meaning(a) == Meaning(b) <==> Fields(MeaningEntries(a)) == Fields(MeaningEntries(b))
  {
    assert Meaning(a) == ObjValue(Fields(MeaningEntries(a)));
    assert Meaning(b) == ObjValue(Fields(MeaningEntries(b)));
  }

  ghost predicate Matched<T, U>(s: seq<Entry<T>>, t: seq<Entry<T>>, u: seq<Entry<U>>, w: seq<Entry<U>>)
    requires |s| == |u| && |t| == |w|
  {
    forall i, j :: 0 <= i < |s| && 0 <= j < |t| ==> (s[i] == t[j] <==> u[i] == w[j])
  }

  lemma EntriesAlike(a: Json, b: Json)
    requires a.Obj? && b.Obj? && Keyed(a.entries) && Keyed(b.entries)
    requires Matched(NormalEntries(a), NormalEntries(b), MeaningEntries(a), MeaningEntries(b))
    ensures Alike(NormalEntries(a), NormalEntries(b), MeaningEntries(a), MeaningEntries(b))
    ensures Alike(MeaningEntries(a), MeaningEntries(b), NormalEntries(a), NormalEntries(b))
  {
  }

  lemma SameObjects(a: Json, b: Json)
    requires a.Obj? && b.Obj? && Keyed(a.entries) && Keyed(b.entries)
    requires Matched(NormalEntries(a), NormalEntries(b), MeaningEntries(a), MeaningEntries(b))
    requires Matched(NormalEntries(b), NormalEntries(a), MeaningEntries(b), MeaningEntries(a))
    ensures Normal(a) == Normal(b) <==> Meaning(a) == Meaning(b)
  {
    EntriesAlike(a, b);
    EntriesAlike(b, a);
    SameNormal(a, b);
    SameMeaning(a, b);
    if Fields(NormalEntries(a)) == Fields(NormalEntries(b)) {
      FieldsAlike(NormalEntries(a), NormalEntries(b), MeaningEntries(a), MeaningEntries(b));
    }
    if Fields(MeaningEntries(a)) == Fields(MeaningEntries(b)) {
      FieldsAlike(MeaningEntries(a), MeaningEntries(b), NormalEntries(a), NormalEntries(b));
    }
  }

  lemma {:induction false} NormalIsMeaning(a: Json, b: Json)
    requires WellFormed(a) && WellFormed(b)
    ensures Normal(a) == Normal(b) <==> Meaning(a) == Meaning(b)
  {
    if a.Arr? && b.Arr? {
      var s, t := Normal(a).items, Normal(b).items;
      var u, w := Meaning(a).items, Meaning(b).items;
      forall i | 0 <= i < |s| && i < |t| ensures s[i] == t[i] <==> u[i] == w[i] {
        NormalIsMeaning(a.items[i], b.items[i]);
      }
    } else if a.Obj? && b.Obj? {
      forall i, j | 0 <= i < |a.entries| && 0 <= j < |b.entries|
        ensures NormalEntries(a)[i] == NormalEntries(b)[j] <==> MeaningEntries(a)[i] == MeaningEntries(b)[j]
      {
        NormalIsMeaning(a.entries[i].value, b.entries[j].value);
      }
      SameObjects(a, b);
    }
  }

  // ----- what the canonical text promises -----

  /** Two values have the same canonical text exactly when they mean the same. */
  lemma SameTextSameMeaning(a: Json, b: Json)
    requires WellFormed(a) && WellFormed(b)
    ensures Text(a) == Text(b) <==> Meaning(a) == Meaning(b)
  {
    TextIsPlain(a);
    TextIsPlain(b);
    PlainSeparable(Normal(a), Normal(b));
    NormalIsMeaning(a, b);
  }

  lemma {:induction false} DistinctCount<T>(s: seq<T>)
    ensures |ToSet(s)| <= |s|
    ensures |ToSet(s)| == |s| <==> Distinct(s)
  {
    if s != [] {
      var init, last := s[..|s| - 1], s[|s| - 1];
      DistinctCount(init);
      assert s == init + [last];
      assert ToSet(s) == ToSet(init) + {last};
      assert last in ToSet(init) <==> last in init;
    }
  }

  /** uniqueItems passes exactly the lists whose items differ pairwise in meaning. */
  lemma UniqueItemsExact(items: seq<Json>)
    requires forall i :: 0 <= i < |items| ==> WellFormed(items[i])
    ensures UniqueItems(items).None? <==> exists i :: 0 <= i < |items| && !Convertible(items[i])
    ensures UniqueItems(items).Some? ==>
              (UniqueItems(items).value <==>
               forall i, j :: 0 <= i < j < |items| ==> Meaning(items[i]) != Meaning(items[j]))
  {
    var texts := Canonicals(items);
    DistinctCount(texts);
    assert forall i :: 0 <= i < |items| ==> texts[i] == Canonical(items[i]);
    forall i, j | 0 <= i < j < |items| && None !in texts
      ensures texts[i] == texts[j] <==> Meaning(items[i]) == Meaning(items[j])
    {
      SameTextSameMeaning(items[i], items[j]);
    }
  }
}
